/**
  One client and its pool under an arbitrary sequence of calls: whatever a program does, as long as
  it keeps to its side of the contract, the machine state is that of a run, and every record is free,
  the record of exactly one request the program holds, or lost to a post that was refused.
 */
module Session {
  import opened Requests
  import opened EventSync
  import opened EventSyncInvariant
  import opened EventSyncTheorems
  import opened Ledger
  import opened ProgressSpec
  import opened Progress
  import opened RequestPool
  import opened HostWait
  import opened ProgressEffect
  import opened RoundSpec
  import opened BatchSpec
  import opened Ownership
  import opened SessionSpec
  import Batch
  import C = Client
  import Posting

  // ---- what holds between calls --------------------------------------------------------------------------

  /**
    The machine has come to the client's state by a run. The program holds exactly the live requests,
    by id; lost are the other records handed out; no accepted TX id is above top.
   */
  ghost predicate InOrder(c: C.Client, pool: Pool, handles: map<nat, MpRequest>, top: nat, lost: set<MpRequest>)
    reads c, c.book.req.Values, c.posted, c.posted.items, pool, pool.free
  {
    && c.Valid() && Goes(INIT, c.abs)
    && pool.Valid() && c.Owns(pool) && c.Others(pool) == lost
    && c.book.req == handles
    && forall x :: x in Line(c.abs.tx) ==> x <= top
  }

  /** What is tidy is looked into only where a fact is opened; the operations hand it from one to the next. */
  predicate Opened(k: int) { 0 <= k }

  ghost predicate Tidy(c: C.Client, pool: Pool, handles: map<nat, MpRequest>, top: nat, lost: set<MpRequest>)
    reads c, c.book.req.Values, c.posted, c.posted.items, pool, pool.free
  {
    forall k {:trigger Opened(k)} :: Opened(k) ==> InOrder(c, pool, handles, top, lost)
  }

  lemma Unfold(c: C.Client, pool: Pool, handles: map<nat, MpRequest>, top: nat, lost: set<MpRequest>)
    requires Tidy(c, pool, handles, top, lost)
    ensures InOrder(c, pool, handles, top, lost) && Inv(c.abs)
  {
    assert Opened(0);
    InitInv();
    GoesKeeps(INIT, c.abs);
  }

  /** No free record is the client's. */
  lemma RecordsApart(c: C.Client, pool: Pool)
    requires c.Valid() && pool.Valid() && c.Owns(pool)
    ensures forall r :: r in c.book.req.Values ==> r in pool.records && r !in pool.free
    ensures forall r :: r in pool.free ==> r in pool.records
    ensures forall r :: r in c.posted.items ==> r in c.book.req.Values
  {
    pool.Look();
    ItemsInBook(c);
  }

  /** What an operation has to know to begin with. */
  lemma Look(c: C.Client, pool: Pool, handles: map<nat, MpRequest>, top: nat, lost: set<MpRequest>)
    requires Tidy(c, pool, handles, top, lost)
    ensures C.Ready(c) && pool.Valid() && c.Owns(pool) && c.Others(pool) == lost && c.book.req == handles
    ensures Goes(INIT, c.abs) && (forall x :: x in Line(c.abs.tx) ==> x <= top)
    ensures c.abs.lastReqId == c.lastReqId && c.abs.lastReqId + 1 !in handles
    ensures c.posted.head == null ==> c.abs.tx.posted == []
    ensures forall r :: r in c.book.req.Values ==> r in pool.records && r !in pool.free
    ensures forall r :: r in pool.free ==> r in pool.records
    ensures forall r :: r in c.posted.items ==> r in c.book.req.Values
  {
    Unfold(c, pool, handles, top, lost);
    RecordsApart(c, pool);
    HeadOf(c);
    NextIsFree(c);
  }

  lemma Seal(c: C.Client, pool: Pool, handles: map<nat, MpRequest>, top: nat, lost: set<MpRequest>)
    requires C.Batching(c, []) && Goes(INIT, c.abs)
    requires pool.Valid() && c.Owns(pool) && c.Others(pool) == lost && c.book.req == handles
    requires forall x :: x in Line(c.abs.tx) ==> x <= top
    ensures Tidy(c, pool, handles, top, lost)
  {
    C.LookBatching(c, []);
  }

  lemma NextIsFree(c: C.Client)
    requires c.Valid()
    ensures c.abs.lastReqId + 1 !in c.book.req
  {
    assert forall id :: id in c.book.says ==> ViewOk(c.abs, id, c.book.place[id], c.book.says[id]);
  }

  lemma TopIsLast(s: State)
    requires Goes(INIT, s)
    ensures forall x :: x in Line(s.tx) ==> x <= s.lastReqId
  {
    InitInv();
    GoesKeeps(INIT, s);
  }

  // ---- calls that draw a request ----------------------------------------------------------------------------

  /** What a draw leaves in order: the new record is held, and nobody else's records are touched. */
  lemma HeldOrLost(live: set<MpRequest>, handles: map<nat, MpRequest>, id: nat, r: MpRequest)
    requires forall x :: x in handles ==> handles[x] in live
    requires r !in live && id !in handles
    ensures (live + {r}) - handles[id := r].Values == live - handles.Values
    ensures (live + {r}) - handles.Values == live - handles.Values + {r}
  {
    DrawnApart(live, handles, id, r);
  }

  lemma PrepareGoes(s: State)
    requires Goes(INIT, s) && s.lastReqId < UINT_MAX
    ensures var t := Apply(s, SendPrepare); Makes(s, SendPrepare, t) && Goes(INIT, t) && Line(t.tx) == Line(s.tx)
  {
    GoesOn(INIT, s, SendPrepare);
  }

  method PrepareIn(c: C.Client, pool: Pool) returns (r: MpRequest)
    requires C.Ready(c) && pool.Valid() && c.Owns(pool) && c.lastReqId < UINT_MAX
    modifies c`lastReqId, c`tx, c`rx, c`abs, c`book, pool, pool.free
    ensures C.Batching(c, []) && pool.Valid() && c.Owns(pool)
    ensures old(c.abs).lastReqId < UINT_MAX && c.abs == Apply(old(c.abs), SendPrepare)
    ensures r.id == old(c.abs).lastReqId + 1 && c.book.req == old(c.book).req[r.id := r]
    ensures r !in old(pool.live) && pool.live == old(pool.live) + {r}
    ensures old(pool.records) <= pool.records && fresh(pool.records - old(pool.records))
  {
    C.Look(c);
    r := c.SendPrepareCall(pool);
    C.BatchNone(c);
  }

  method Prepare(c: C.Client, pool: Pool, handles: map<nat, MpRequest>, top: nat, ghost lost: set<MpRequest>)
    returns (h: map<nat, MpRequest>)
    requires Tidy(c, pool, handles, top, lost) && c.lastReqId < UINT_MAX
    modifies c, pool, c.posted, pool.records
    ensures Tidy(c, pool, h, top, lost) && Makes(old(c.abs), SendPrepare, c.abs)
    ensures old(pool.records) <= pool.records && fresh(pool.records - old(pool.records))
  {
    Look(c, pool, handles, top, lost);
    var r := PrepareIn(c, pool);
    HeldOrLost(old(pool.live), handles, r.id, r);
    PrepareGoes(old(c.abs));
    h := handles[r.id := r];
    Seal(c, pool, h, top, lost);
  }

  lemma DirectGoes(s: State, wait: bool)
    requires Goes(INIT, s) && s.lastReqId < UINT_MAX
    ensures var t := Apply(s, DirectOf(wait)); Makes(s, DirectOf(wait), t) && Goes(INIT, t)
    ensures forall x :: x in Line(Apply(s, DirectOf(wait)).tx) ==> x <= s.lastReqId + 1
  {
    GoesOn(INIT, s, DirectOf(wait));
    TopIsLast(Apply(s, DirectOf(wait)));
  }

  /** mp_isend_on_stream, or with a wait mp_send_on_stream. */
  method SendEither(c: C.Client, pool: Pool, wait: bool) returns (r: MpRequest)
    requires C.Ready(c) && pool.Valid() && c.Owns(pool) && c.lastReqId < UINT_MAX
    modifies c`lastReqId, c`lastPostedTrigger, c`stream, c`tx, c`rx, c`abs, c`book
    modifies pool, pool.free, c.posted, (set x | x in c.posted.items)`next
    ensures C.Batching(c, []) && pool.Valid() && c.Owns(pool)
    ensures old(c.abs).lastReqId < UINT_MAX && c.abs == Apply(old(c.abs), DirectOf(wait))
    ensures r.id == old(c.abs).lastReqId + 1 && c.book.req == old(c.book).req[r.id := r]
    ensures r !in old(pool.live) && pool.live == old(pool.live) + {r}
    ensures old(pool.records) <= pool.records && fresh(pool.records - old(pool.records))
  {
    ReadyBatches(c);
    if wait {
      r := c.SendOnStreamCall(pool);
    } else {
      r := c.IsendOnStreamCall(pool);
    }
  }

  method SendDirect(c: C.Client, pool: Pool, handles: map<nat, MpRequest>, ghost top: nat,
                    ghost lost: set<MpRequest>, wait: bool) returns (h: map<nat, MpRequest>, newTop: nat)
    requires Tidy(c, pool, handles, top, lost) && c.lastReqId < UINT_MAX
    modifies c, pool, c.posted, pool.records
    ensures Tidy(c, pool, h, newTop, lost) && Makes(old(c.abs), DirectOf(wait), c.abs)
    ensures old(pool.records) <= pool.records && fresh(pool.records - old(pool.records))
  {
    Look(c, pool, handles, top, lost);
    var r := SendEither(c, pool, wait);
    HeldOrLost(old(pool.live), handles, r.id, r);
    DirectGoes(old(c.abs), wait);
    h, newTop := handles[r.id := r], r.id;
    Seal(c, pool, h, newTop, lost);
  }

  /** Calls that post at once go on from wherever the engine got to meanwhile. */
  lemma PostedAtOnce(s: State, u: State, t: State, e: Step, top: nat)
    requires Goes(INIT, s) && Leads(s, u) && Enabled(u, e) && t == Apply(u, e)
    requires e.Irecv? || e.PutNowait? || (e.IsendNow? && u.tx.posted == [])
    requires forall x :: x in Line(s.tx) ==> x <= top
    ensures Goes(INIT, t) && forall x :: x in Line(t.tx) ==> x <= if e.IsendNow? then t.lastReqId else top
  {
    LeadsGoes(s, u);
    GoesBoth(INIT, s, u);
    GoesOn(INIT, u, e);
    LeadsLine(s, u);
    TopIsLast(t);
  }

  function TakenStep(kind: ReqType, ret: int): (e: Step) {
    if ret == C.MP_SUCCESS then Posting.StepOf(kind) else PutNowait
  }

  /** The highest id that may be on the line after a call that posts request id at once. */
  function TopAfter(kind: ReqType, ret: int, id: nat, top: nat): (newTop: nat) {
    if ret == C.MP_SUCCESS && kind.SendReq? then id else top
  }

  lemma PostingGoes(s: State, u: State, marks: seq<State>, n: nat, kind: ReqType, attempts: nat -> Posting.Attempt,
                    ret: int, top: nat)
    requires Goes(INIT, s) && Leads(s, u) && u.lastReqId < UINT_MAX && !kind.NullReq?
    requires kind.SendReq? ==> u.tx.posted == []
    requires Posting.EndsAt(attempts, n) && (ret == C.MP_SUCCESS <==> attempts(n).Taken?)
    requires Posting.Tries(marks, if kind.RecvReq? then RX else TX, attempts) && Posting.TriedFor(marks, attempts, n)
    requires marks[0] == Fresh(s) && marks[|marks| - 1] == Fresh(u)
    requires forall x :: x in Line(s.tx) ==> x <= top
    ensures var t := Apply(u, TakenStep(kind, ret));
      && PostsFrom(s, u, marks, n, kind, attempts, t) && Goes(INIT, t)
      && forall x :: x in Line(t.tx) ==> x <= TopAfter(kind, ret, u.lastReqId + 1, top)
  {
    PostedAtOnce(s, u, Apply(u, TakenStep(kind, ret)), TakenStep(kind, ret), top);
  }

  /** What the program holds, and what is lost, after a call that posts at once. */
  lemma AfterPosting(c: C.Client, pool: Pool, handles: map<nat, MpRequest>, live: set<MpRequest>, r: MpRequest, took: bool)
    requires r !in live && pool.live == live + {r} && (forall x :: x in handles ==> handles[x] in live)
    requires r.id !in handles && c.book.req == if took then handles[r.id := r] else handles
    ensures c.Others(pool) == live - handles.Values + if took then {} else {r}
  {
    HeldOrLost(live, handles, r.id, r);
  }

  /** mp_irecv, mp_isend, or mp_iput with MP_PUT_NOWAIT; an immediate send only with nothing posted. */
  method PostNow(c: C.Client, pool: Pool, handles: map<nat, MpRequest>, top: nat, ghost lost: set<MpRequest>,
                 kind: ReqType, attempts: nat -> Posting.Attempt)
    returns (h: map<nat, MpRequest>, newTop: nat, ghost nowLost: set<MpRequest>, ghost u: State, ghost marks: seq<State>,
             ghost n: nat)
    requires Tidy(c, pool, handles, top, lost) && c.lastReqId < UINT_MAX
    requires !kind.NullReq? && (kind.SendReq? ==> c.posted.head == null)
    modifies c, pool, c.posted, pool.records
    ensures Tidy(c, pool, h, newTop, nowLost) && PostsFrom(old(c.abs), u, marks, n, kind, attempts, c.abs)
    ensures old(pool.records) <= pool.records && fresh(pool.records - old(pool.records))
  {
    Look(c, pool, handles, top, lost);
    var ret, r;
    ret, r, u, n, marks := Posting.PostAtOnce(c, pool, kind, attempts);
    AfterPosting(c, pool, handles, old(pool.live), r, ret == C.MP_SUCCESS);
    PostingGoes(old(c.abs), u, marks, n, kind, attempts, ret, top);
    h := if ret == C.MP_SUCCESS then handles[r.id := r] else handles;
    newTop := TopAfter(kind, ret, r.id, top);
    nowLost := lost + if ret == C.MP_SUCCESS then {} else {r};
    Seal(c, pool, h, newTop, nowLost);
  }

  // ---- calls on a prepared or accepted request --------------------------------------------------------------

  /** The record of a request the program holds, and what its fields tell about where it is. */
  lemma HeldSays(c: C.Client, r: MpRequest, id: nat)
    requires c.Valid() && id in c.book.req && c.book.req[id] == r
    ensures r.id == id && Entry(c.book, id, c.book.place[id], r)
    ensures c.book.place[id] == AtPrepared || c.book.place[id] == AtPosted <==> r.status == Status.Prepared
    ensures c.book.place[id] == AtPosted ==> id in c.abs.tx.posted
    ensures c.book.place[id] == AtPrepared ==> id in c.abs.prepared && r.prev == null && r != c.posted.head
    ensures c.book.place[id] == Idle <==> r.nowait
  {
    RecordSays(c.abs, c.book, id, c.book.place[id], r);
    if c.book.place[id] == AtPrepared {
      NotPosted(c.abs, c.book, c.tx, c.rx, c.posted.items, id, AtPrepared, r);
    }
  }

  /** The program posts a prepared send only above all accepted ids; posting one again is refused. */
  predicate MayPost(r: MpRequest, mark: nat, top: nat)
    reads r`status, r`id
  {
    r.status.Prepared? && (r.id <= mark || top < r.id)
  }

  /** Either call, on a request wherever it is. */
  method PostEither(c: C.Client, r: MpRequest, ghost p: Place, wait: bool) returns (ret: int)
    requires C.Ready(c) && Entry(c.book, r.id, p, r) && (p == AtPrepared || p == AtPosted)
    modifies c`lastPostedTrigger, c`stream, c`tx, c`rx, c`abs, c`book
    modifies c.posted, (set x | x in c.posted.items)`next, r`prev, r`trigger
    ensures C.Batching(c, []) && c.abs == PostOne(old(c.abs), r.id, wait) && c.book.req == old(c.book).req
    ensures Enabled(old(c.abs), if wait then SendPost(r.id) else IsendPost(r.id))
    ensures ret == C.MP_SUCCESS <==> r.id > old(c.abs).lastPostedTrigger
  {
    if wait {
      ret := c.SendPostOnStream(r, p);
    } else {
      ret := c.IsendPostOnStream(r, p);
    }
  }

  lemma PostedOne(s: State, id: nat, wait: bool, top: nat)
    requires Goes(INIT, s) && Enabled(s, if wait then SendPost(id) else IsendPost(id))
    requires (forall x :: x in Line(s.tx) ==> x <= top) && (id <= s.lastPostedTrigger || top < id)
    ensures var t := PostOne(s, id, wait);
      && Goes(INIT, t) && Makes(s, PostOf(id, wait), t)
      && forall x :: x in Line(t.tx) ==> x <= if id > s.lastPostedTrigger then id else top
  {
    GoesOn(INIT, s, if wait then SendPost(id) else IsendPost(id));
    if id > s.lastPostedTrigger { PostOneAccepts(s, id, wait); }
  }

  method PostPreparedIn(c: C.Client, r: MpRequest, id: nat, ghost top: nat, wait: bool) returns (ret: int)
    requires C.Ready(c) && Goes(INIT, c.abs) && (forall x :: x in Line(c.abs.tx) ==> x <= top)
    requires id in c.book.req && c.book.req[id] == r && MayPost(r, c.lastPostedTrigger, top)
    modifies c`lastPostedTrigger, c`stream, c`tx, c`rx, c`abs, c`book
    modifies c.posted, (set x | x in c.posted.items)`next, r`prev, r`trigger
    ensures C.Batching(c, []) && Goes(INIT, c.abs) && c.book.req == old(c.book).req
    ensures Makes(old(c.abs), PostOf(id, wait), c.abs)
    ensures forall x :: x in Line(c.abs.tx) ==> x <= if ret == C.MP_SUCCESS then id else top
  {
    C.Look(c);
    HeldSays(c, r, id);
    ret := PostEither(c, r, c.book.place[id], wait);
    PostedOne(old(c.abs), id, wait, top);
  }

  /** mp_isend_post_on_stream, or with a wait mp_send_post_on_stream. */
  method PostPrepared(c: C.Client, pool: Pool, handles: map<nat, MpRequest>, top: nat, ghost lost: set<MpRequest>,
                      id: nat, wait: bool) returns (newTop: nat)
    requires Tidy(c, pool, handles, top, lost) && id in handles && MayPost(handles[id], c.lastPostedTrigger, top)
    modifies c, pool, c.posted, pool.records
    ensures Tidy(c, pool, handles, newTop, lost) && pool.records == old(pool.records)
    ensures Makes(old(c.abs), PostOf(id, wait), c.abs)
  {
    Look(c, pool, handles, top, lost);
    assert handles[id] in handles.Values;
    var ret := PostPreparedIn(c, handles[id], id, top, wait);
    newTop := if ret == C.MP_SUCCESS then id else top;
    Seal(c, pool, handles, newTop, lost);
  }

  /** On the line: neither an unsignalled put nor a send that was not accepted yet. */
  predicate OnLine(r: MpRequest, head: MpRequest?)
    reads r`status, r`nowait, r`prev
  {
    !r.nowait && (r.status.Prepared? ==> r.prev != null || r == head)
  }

  lemma AcceptedOnLine(c: C.Client, r: MpRequest, id: nat)
    requires c.Valid() && id in c.book.req && c.book.req[id] == r && OnLine(r, c.posted.head)
    ensures r.id == id && id in Line(LaneOf(c.abs, FlowOf(r.kind)))
    ensures Entry(c.book, id, c.book.place[id], r) && !c.book.place[id].Idle?
  {
    HeldSays(c, r, id);
    RecordSays(c.abs, c.book, id, c.book.place[id], r);
  }

  lemma WaitedOne(s: State, f: Flow, id: nat)
    requires Goes(INIT, s) && Enabled(s, WaitOnStream(f, id)) && id in Line(LaneOf(s, f))
    ensures var t := WaitCall(s, f, id); Goes(INIT, t) && WaitsOn(s, f, id, t) && Line(t.tx) == Line(s.tx)
  {
    GoesOn(INIT, s, WaitOnStream(f, id));
    WaitLines(s, f, id);
  }

  method WaitStreamOnce(c: C.Client, r: MpRequest, ghost p: Place)
    requires C.Batching(c, []) && Entry(c.book, r.id, p, r) && !p.Idle?
    modifies c`stream, c`tx, c`rx, c`abs, c`book, r`trigger
    ensures C.Batching(c, []) && c.book.req == old(c.book).req
    ensures Enabled(old(c.abs), WaitOnStream(FlowOf(old(r.kind)), r.id))
    ensures c.abs == WaitCall(old(c.abs), FlowOf(old(r.kind)), r.id)
  {
    c.WaitOnStreamCall(r, p);
  }

  method WaitStreamIn(c: C.Client, r: MpRequest, id: nat) returns (ghost f: Flow)
    requires C.Ready(c) && Goes(INIT, c.abs) && id in c.book.req && c.book.req[id] == r && OnLine(r, c.posted.head)
    modifies c`stream, c`tx, c`rx, c`abs, c`book, r`trigger
    ensures C.Batching(c, []) && Goes(INIT, c.abs) && c.book.req == old(c.book).req
    ensures Line(c.abs.tx) == Line(old(c.abs).tx) && WaitsOn(old(c.abs), f, id, c.abs)
  {
    C.Look(c);
    AcceptedOnLine(c, r, id);
    f := FlowOf(r.kind);
    WaitStreamOnce(c, r, c.book.place[id]);
    WaitedOne(old(c.abs), f, id);
  }

  /** mp_wait_on_stream */
  method WaitStream(c: C.Client, pool: Pool, handles: map<nat, MpRequest>, ghost top: nat, ghost lost: set<MpRequest>, id: nat)
    returns (ghost f: Flow)
    requires Tidy(c, pool, handles, top, lost) && id in handles && OnLine(handles[id], c.posted.head)
    modifies c, pool, c.posted, pool.records
    ensures Tidy(c, pool, handles, top, lost) && pool.records == old(pool.records)
    ensures WaitsOn(old(c.abs), f, id, c.abs)
  {
    Look(c, pool, handles, top, lost);
    assert handles[id] in handles.Values;
    f := WaitStreamIn(c, handles[id], id);
    Seal(c, pool, handles, top, lost);
  }

  // ---- batched calls ----------------------------------------------------------------------------------------

  /** The records of the requests with the given ids. */
  function Records(handles: map<nat, MpRequest>, ids: seq<nat>): (reqs: seq<MpRequest>)
    requires forall id :: id in ids ==> id in handles
    ensures |reqs| == |ids| && forall i :: 0 <= i < |ids| ==> reqs[i] == handles[ids[i]]
  {
    seq(|ids|, i requires 0 <= i < |ids| => handles[ids[i]])
  }

  /** The program holds the requests ids, and their records are reqs. */
  ghost predicate Holding(c: C.Client, ids: seq<nat>, reqs: seq<MpRequest>)
    reads c
  {
    |reqs| == |ids| && forall i {:trigger reqs[i]} :: 0 <= i < |ids| ==> ids[i] in c.book.req && c.book.req[ids[i]] == reqs[i]
  }

  predicate AllPrepared(reqs: seq<MpRequest>)
    reads (set r | r in reqs)`status
  {
    forall i {:trigger reqs[i]} :: 0 <= i < |reqs| ==> reqs[i].status.Prepared?
  }

  lemma BatchPlaces(c: C.Client, ids: seq<nat>, reqs: seq<MpRequest>)
    requires c.Valid() && Inv(c.abs) && Holding(c, ids, reqs) && AllPrepared(reqs) && Rising(ids, c.lastPostedTrigger)
    ensures Batch.AllPostable(c.book, c.lastPostedTrigger, reqs) && Batch.IdsOf(ids, reqs)
    ensures forall i {:trigger ids[i]} :: 0 <= i < |ids| ==> ids[i] in c.abs.prepared
  {
    forall i | 0 <= i < |ids|
      ensures reqs[i].id == ids[i] && ids[i] in c.abs.prepared && Batch.Postable(c.book, c.lastPostedTrigger, reqs[i])
    {
      assert reqs[i] == reqs[i];
      HeldSays(c, reqs[i], ids[i]);
      PostedBelow(c.abs, ids[i]);
      RisingAboveMark(ids, c.lastPostedTrigger, i);
    }
  }

  lemma RisingFrom(ids: seq<nat>, lo: nat, mark: nat)
    requires Rising(ids, lo) && mark <= lo
    ensures Rising(ids, mark)
  {
    forall i | 0 <= i < |ids| ensures RisesAt(ids, i, mark) { assert RisesAt(ids, i, lo); }
  }

  /** A batch above all accepted ids is a stretch of the run. */
  lemma PostedAll(s: State, ids: seq<nat>, wait: bool, lo: nat)
    requires Goes(INIT, s) && Rising(ids, lo) && s.lastPostedTrigger <= lo && (forall x :: x in Line(s.tx) ==> x <= lo)
    requires forall i {:trigger ids[i]} :: 0 <= i < |ids| ==> ids[i] in s.prepared
    ensures var t := PostEach(s, ids, wait);
      InLine(s, ids) && Goes(INIT, t) && forall x :: x in Line(t.tx) ==> x <= if ids == [] then lo else ids[|ids| - 1]
  {
    RisingFrom(ids, lo, s.lastPostedTrigger);
    if ids != [] {
      RisingAboveMark(ids, lo, 0);
      RisingLast(ids, lo);
      assert ids == ids[..|ids| - 1] + [ids[|ids| - 1]];
    }
    PostEachGoes(s, ids, wait);
    PostEachLine(s, ids, wait);
    GoesBoth(INIT, s, PostEach(s, ids, wait));
  }

  lemma RisesWhole(ids: seq<nat>, n: nat, lo: nat)
    requires BreaksAt(ids, n, lo) && Rising(ids, lo)
    ensures n == |ids| && ids[..n] == ids
  {
    assert forall i :: 0 <= i < |ids| ==> RisesAt(ids, i, lo);
  }

  method PostBatchIn(c: C.Client, ids: seq<nat>, reqs: seq<MpRequest>, wait: bool)
    requires C.Batching(c, []) && Batch.AllPostable(c.book, c.lastPostedTrigger, reqs) && Batch.IdsOf(ids, reqs)
    requires Rising(ids, c.lastPostedTrigger)
    modifies c`lastPostedTrigger, c`stream, c`tx, c`rx, c`abs, c`book
    modifies c.posted, (set x | x in c.posted.items)`next
    modifies (set r | r in reqs)`next, (set r | r in reqs)`prev, (set r | r in reqs)`trigger
    ensures C.Batching(c, []) && c.abs == PostEach(old(c.abs), ids, wait) && c.book.req == old(c.book).req
  {
    ghost var n;
    if wait {
      var _, m, _ := Batch.SendPostAll(c, reqs, ids);
      n := m;
    } else {
      var _, m := Batch.IsendPostAll(c, reqs, ids);
      n := m;
    }
    RisesWhole(ids, n, old(c.lastPostedTrigger));
  }

  method PostBatchReady(c: C.Client, ids: seq<nat>, reqs: seq<MpRequest>, wait: bool, ghost lo: nat)
    requires C.Ready(c) && Goes(INIT, c.abs) && (forall x :: x in Line(c.abs.tx) ==> x <= lo)
    requires Holding(c, ids, reqs) && AllPrepared(reqs) && Rising(ids, lo) && c.lastPostedTrigger <= lo
    modifies c`lastPostedTrigger, c`stream, c`tx, c`rx, c`abs, c`book
    modifies c.posted, (set x | x in c.posted.items)`next
    modifies (set r | r in reqs)`next, (set r | r in reqs)`prev, (set r | r in reqs)`trigger
    ensures C.Batching(c, []) && Goes(INIT, c.abs) && c.book.req == old(c.book).req
    ensures InLine(old(c.abs), ids) && c.abs == PostEach(old(c.abs), ids, wait)
    ensures forall x :: x in Line(c.abs.tx) ==> x <= if ids == [] then lo else ids[|ids| - 1]
  {
    C.Look(c);
    RisingFrom(ids, lo, c.lastPostedTrigger);
    BatchPlaces(c, ids, reqs);
    PostedAll(c.abs, ids, wait, lo);
    C.BatchNone(c);
    PostBatchIn(c, ids, reqs, wait);
  }

  /** mp_isend_post_all_on_stream, or with waits mp_send_post_all_on_stream, in order. */
  method PostBatch(c: C.Client, pool: Pool, handles: map<nat, MpRequest>, top: nat, ghost lost: set<MpRequest>,
                   ids: seq<nat>, wait: bool) returns (newTop: nat)
    requires Tidy(c, pool, handles, top, lost) && (forall id :: id in ids ==> id in handles)
    requires AllPrepared(Records(handles, ids)) && Rising(ids, if top < c.lastPostedTrigger then c.lastPostedTrigger else top)
    modifies c, pool, c.posted, pool.records
    ensures Tidy(c, pool, handles, newTop, lost) && pool.records == old(pool.records)
    ensures InLine(old(c.abs), ids) && c.abs == PostEach(old(c.abs), ids, wait)
  {
    var lo := if top < c.lastPostedTrigger then c.lastPostedTrigger else top;
    var reqs := Records(handles, ids);
    newTop := if ids == [] then lo else ids[|ids| - 1];
    Look(c, pool, handles, top, lost);
    BatchApart(c, pool, handles, ids, reqs);
    PostBatchReady(c, ids, reqs, wait, lo);
    Seal(c, pool, handles, newTop, lost);
  }

  /** The records of a batch are the client's, so none is free. */
  lemma BatchApart(c: C.Client, pool: Pool, handles: map<nat, MpRequest>, ids: seq<nat>, reqs: seq<MpRequest>)
    requires c.book.req == handles && (forall id :: id in ids ==> id in handles) && reqs == Records(handles, ids)
    requires forall r :: r in c.book.req.Values ==> r in pool.records && r !in pool.free
    ensures Holding(c, ids, reqs) && forall r :: r in reqs ==> r in pool.records && r !in pool.free && r in c.book.req.Values
  {
    forall r | r in reqs ensures r in c.book.req.Values {
      var i :| 0 <= i < |reqs| && reqs[i] == r;
      assert ids[i] in handles;
    }
  }

  function AwaitedKeys(reqs: seq<MpRequest>): (keys: seq<Awaited>)
    reads (set r | r in reqs)`id, (set r | r in reqs)`kind
    ensures Batch.AwaitedOf(keys, reqs)
  {
    if reqs == [] then []
    else
      var r := reqs[|reqs| - 1];
      AwaitedKeys(reqs[..|reqs| - 1]) + [Awaited(FlowOf(r.kind), r.id)]
  }

  /** Accepted, and not complete. */
  predicate AllOnLine(reqs: seq<MpRequest>, head: MpRequest?)
    reads (set r | r in reqs)`status, (set r | r in reqs)`nowait, (set r | r in reqs)`prev
  {
    forall i {:trigger reqs[i]} :: 0 <= i < |reqs| ==> OnLine(reqs[i], head) && !reqs[i].status.Complete?
  }

  lemma LinePlaces(c: C.Client, ids: seq<nat>, reqs: seq<MpRequest>, keys: seq<Awaited>)
    requires c.Valid() && Holding(c, ids, reqs) && AllOnLine(reqs, c.posted.head) && Batch.AwaitedOf(keys, reqs)
    ensures Batch.AllAwaitable(c.book.req, c.book.place, reqs) && AllAccepted(c.abs, keys)
    ensures forall i :: 0 <= i < |keys| ==> keys[i].id == ids[i]
  {
    forall i | 0 <= i < |reqs|
      ensures Batch.Awaitable(c.book.req, c.book.place, reqs[i]) && keys[i].id == ids[i]
      ensures keys[i].id in Line(LaneOf(c.abs, keys[i].flow))
    {
      assert reqs[i] == reqs[i] && keys[i] == keys[i];
      AcceptedOnLine(c, reqs[i], ids[i]);
    }
  }

  method WaitBatchReady(c: C.Client, ids: seq<nat>, reqs: seq<MpRequest>) returns (ghost keys: seq<Awaited>)
    requires C.Ready(c) && Goes(INIT, c.abs) && Holding(c, ids, reqs) && AllOnLine(reqs, c.posted.head)
    modifies c`stream, c`tx, c`rx, c`abs, c`book, (set r | r in reqs)`trigger
    ensures C.Batching(c, []) && Goes(INIT, c.abs) && c.book.req == old(c.book).req
    ensures Line(c.abs.tx) == Line(old(c.abs).tx) && WaitsAll(old(c.abs), keys, ids, c.abs)
  {
    C.Look(c);
    keys := AwaitedKeys(reqs);
    LinePlaces(c, ids, reqs, keys);
    WaitEachGoes(c.abs, keys);
    GoesBoth(INIT, c.abs, WaitEach(c.abs, keys));
    C.BatchNone(c);
    Batch.WaitAllOnStream(c, reqs, keys);
  }

  /** mp_wait_all_on_stream */
  method WaitBatch(c: C.Client, pool: Pool, handles: map<nat, MpRequest>, ghost top: nat, ghost lost: set<MpRequest>,
                   ids: seq<nat>) returns (ghost keys: seq<Awaited>)
    requires Tidy(c, pool, handles, top, lost) && (forall id :: id in ids ==> id in handles)
    requires AllOnLine(Records(handles, ids), c.posted.head)
    modifies c, pool, c.posted, pool.records
    ensures Tidy(c, pool, handles, top, lost) && pool.records == old(pool.records)
    ensures WaitsAll(old(c.abs), keys, ids, c.abs)
  {
    var reqs := Records(handles, ids);
    Look(c, pool, handles, top, lost);
    BatchApart(c, pool, handles, ids, reqs);
    keys := WaitBatchReady(c, ids, reqs);
    Seal(c, pool, handles, top, lost);
  }

  // ---- the stream, the NIC, the progress engine and the host's waits ----------------------------------------

  lemma EngineGoes(s: State, t: State)
    requires Goes(INIT, s) && Leads(s, t)
    ensures Goes(INIT, t) && Line(t.tx) == Line(s.tx)
  {
    LeadsGoes(s, t);
    GoesBoth(INIT, s, t);
    LeadsLine(s, t);
  }

  /** Whatever of the events is possible happens, and then one flow makes progress. */
  method Progresses(c: C.Client, pool: Pool, handles: map<nat, MpRequest>, ghost top: nat, ghost lost: set<MpRequest>,
                    events: seq<Event>, f: Flow, ok: nat -> bool, polled: int)
    requires Tidy(c, pool, handles, top, lost)
    modifies c, pool, c.posted, pool.records
    ensures Tidy(c, pool, handles, top, lost) && pool.records == old(pool.records) && Leads(old(c.abs), c.abs)
    ensures Turned(old(c.abs), c.abs, f, events, ok, polled)
  {
    Look(c, pool, handles, top, lost);
    ProgressReady(c, events, f, ok, polled);
    EngineGoes(old(c.abs), c.abs);
    Seal(c, pool, handles, top, lost);
  }

  method ProgressReady(c: C.Client, events: seq<Event>, f: Flow, ok: nat -> bool, polled: int)
    requires C.Ready(c)
    modifies c`lastDoneId, c`executed, c`lastTrigger, c`tx, c`rx, c`abs, c`book, c.posted
    modifies c.book.req.Values`next, c.book.req.Values`prev, c.book.req.Values`status
    ensures Turned(old(c.abs), c.abs, f, events, ok, polled)
    ensures C.Batching(c, []) && Leads(old(c.abs), c.abs) && c.book.req == old(c.book).req
  {
    C.Look(c);
    var _ := Turn(c, f, events, ok, polled);
    C.BatchNone(c);
  }

  function WaitKeys(reqs: seq<MpRequest>): (keys: seq<Key>)
    reads (set r | r in reqs)`id, (set r | r in reqs)`kind
    ensures KeysOf(keys, reqs)
  {
    if reqs == [] then [] else WaitKeys(reqs[..|reqs| - 1]) + [KeyOf(reqs[|reqs| - 1])]
  }

  lemma HoldingHandles(c: C.Client, ids: seq<nat>, reqs: seq<MpRequest>)
    requires c.Valid() && Holding(c, ids, reqs)
    ensures AllHandles(c.book.req, reqs) && AllReturned(c.book.req, reqs)
    ensures forall i :: 0 <= i < |ids| ==> reqs[i].id == ids[i]
  {
    forall i | 0 <= i < |reqs| ensures Handle(c.book.req, reqs[i]) && reqs[i].id == ids[i] {
      assert reqs[i] == reqs[i];
      HeldSays(c, reqs[i], ids[i]);
    }
  }

  method ProgressAllReady(c: C.Client, ids: seq<nat>, reqs: seq<MpRequest>, rounds: seq<Round>)
    returns (ghost marks: seq<State>, ghost keys: seq<Key>, ghost ret: int, ghost failed: bool)
    requires C.Ready(c) && Holding(c, ids, reqs) && |rounds| == |reqs|
    modifies c`lastDoneId, c`executed, c`lastTrigger, c`tx, c`rx, c`abs, c`book, c.posted
    modifies c.book.req.Values`next, c.book.req.Values`prev, c.book.req.Values`status
    ensures ProgressesFor(old(c.abs), marks, keys, ids, rounds, ret, failed, c.abs)
    ensures C.Batching(c, []) && Leads(old(c.abs), c.abs) && c.book.req == old(c.book).req
  {
    ReadyHandles(c, ids, reqs);
    keys := WaitKeys(reqs);
    ret, failed, marks := ProgressAll(c, reqs, keys, rounds);
    ReadyBatches(c);
  }

  /** mp_progress_all */
  method ProgressesAll(c: C.Client, pool: Pool, handles: map<nat, MpRequest>, ghost top: nat, ghost lost: set<MpRequest>,
                       ids: seq<nat>, rounds: seq<Round>)
    returns (ghost marks: seq<State>, ghost keys: seq<Key>, ghost ret: int, ghost failed: bool)
    requires Tidy(c, pool, handles, top, lost) && (forall id :: id in ids ==> id in handles) && |rounds| == |ids|
    modifies c, pool, c.posted, pool.records
    ensures Tidy(c, pool, handles, top, lost) && pool.records == old(pool.records) && Leads(old(c.abs), c.abs)
    ensures ProgressesFor(old(c.abs), marks, keys, ids, rounds, ret, failed, c.abs)
  {
    var reqs := Records(handles, ids);
    Look(c, pool, handles, top, lost);
    BatchApart(c, pool, handles, ids, reqs);
    marks, keys, ret, failed := ProgressAllReady(c, ids, reqs, rounds);
    EngineGoes(old(c.abs), c.abs);
    Seal(c, pool, handles, top, lost);
  }

  lemma ReadyBatches(c: C.Client)
    requires C.Ready(c)
    ensures C.Batching(c, [])
  {
    C.Look(c);
    C.BatchNone(c);
  }

  lemma ReadyHandles(c: C.Client, ids: seq<nat>, reqs: seq<MpRequest>)
    requires C.Ready(c) && Holding(c, ids, reqs)
    ensures AllHandles(c.book.req, reqs) && AllReturned(c.book.req, reqs)
    ensures forall i :: 0 <= i < |ids| ==> reqs[i].id == ids[i]
  {
    C.Look(c);
    HoldingHandles(c, ids, reqs);
  }

  /** The requests with these ids are no longer held. */
  function Dropped(handles: map<nat, MpRequest>, ids: seq<nat>): (h: map<nat, MpRequest>) {
    handles - set id | id in ids
  }

  lemma Waited(handles: map<nat, MpRequest>, ids: seq<nat>, keys: seq<Key>)
    requires |keys| == |ids| && forall i :: 0 <= i < |ids| ==> keys[i].id == ids[i]
    ensures Without(handles, keys, |keys|) == Dropped(handles, ids)
  {
    WithoutIff(handles, keys, |keys|);
    forall id ensures id in ids <==> exists i :: 0 <= i < |keys| && keys[i].id == id {
      if id in ids { var i :| 0 <= i < |ids| && ids[i] == id; assert keys[i].id == id; }
    }
  }

  lemma DistinctRecords(ids: seq<nat>, reqs: seq<MpRequest>)
    requires Distinct(ids) && |reqs| == |ids| && forall i :: 0 <= i < |ids| ==> reqs[i].id == ids[i]
    ensures Distinct(reqs)
  {
  }

  method WaitHostReady(c: C.Client, pool: Pool, ids: seq<nat>, reqs: seq<MpRequest>, postWait: seq<int>, rounds: seq<Round>)
    returns (out: Outcome, ghost marks: seq<State>, ghost keys: seq<Key>, ghost verdict: Outcome)
    requires C.Ready(c) && pool.Valid() && c.Owns(pool) && Holding(c, ids, reqs) && Distinct(ids) && |postWait| == |reqs|
    modifies c`lastDoneId, c`executed, c`lastTrigger, c`tx, c`rx, c`abs, c`book, c.posted, pool
    modifies c.book.req.Values`next, c.book.req.Values`prev, c.book.req.Values`status, c.book.req.Values`kind
    ensures C.Batching(c, []) && Leads(old(c.abs), c.abs)
    ensures verdict == old(Verdict(reqs, postWait, |reqs|)) && WaitsFrom(old(c.abs), marks, keys, ids, rounds, verdict, out, c.abs)
    ensures verdict == SUCCESS && old(Ripe(c.abs, keys) && Enough(c.abs, rounds)) ==> out == SUCCESS
    ensures pool.Valid() && c.Owns(pool) && KeptOf(c, pool) == old(KeptOf(c, pool))
    ensures c.book.req == if out == SUCCESS then Dropped(old(c.book).req, ids) else old(c.book).req
  {
    keys := WaitKeys(reqs);
    verdict := Verdict(reqs, postWait, |reqs|);
    ReadyHandles(c, ids, reqs);
    DistinctRecords(ids, reqs);
    Waited(c.book.req, ids, keys);
    ghost var complete;
    out, complete, marks := WaitAll(c, pool, reqs, keys, postWait, rounds);
    ReadyBatches(c);
  }

  /** mp_wait_all on different requests: exactly on success they are no longer held. */
  method WaitHost(c: C.Client, pool: Pool, handles: map<nat, MpRequest>, ghost top: nat, ghost lost: set<MpRequest>,
                  ids: seq<nat>, postWait: seq<int>, rounds: seq<Round>)
    returns (h: map<nat, MpRequest>, out: Outcome, ghost marks: seq<State>, ghost keys: seq<Key>, ghost verdict: Outcome)
    requires Tidy(c, pool, handles, top, lost) && (forall id :: id in ids ==> id in handles)
    requires |postWait| == |ids| && Distinct(ids)
    modifies c, pool, c.posted, pool.records
    ensures Tidy(c, pool, h, top, lost) && pool.records == old(pool.records) && Leads(old(c.abs), c.abs)
    ensures verdict == old(Verdict(Records(handles, ids), postWait, |ids|))
    ensures WaitsFrom(old(c.abs), marks, keys, ids, rounds, verdict, out, c.abs)
    ensures verdict == SUCCESS && old(Ripe(c.abs, keys) && Enough(c.abs, rounds)) ==> out == SUCCESS
    ensures h == if out == SUCCESS then Dropped(handles, ids) else handles
  {
    var reqs := Records(handles, ids);
    Look(c, pool, handles, top, lost);
    BatchApart(c, pool, handles, ids, reqs);
    out, marks, keys, verdict := WaitHostReady(c, pool, ids, reqs, postWait, rounds);
    EngineGoes(old(c.abs), c.abs);
    h := if out == SUCCESS then Dropped(handles, ids) else handles;
    Seal(c, pool, h, top, lost);
  }

  // ---- any sequence of calls --------------------------------------------------------------------------------

  /**
    The program's side of the contract, as far as it can tell from its handles: ids are left, requests
    are held, nothing is posted behind an immediate send, prepared sends are posted in order, and the
    stream waits for accepted requests only.
   */
  predicate Allowed(c: C.Client, handles: map<nat, MpRequest>, top: nat, op: Op)
    reads c, c.posted, handles.Values
  {
    match op
    case SendPrepareOp => c.lastReqId < UINT_MAX
    case SendDirectOp(_) => c.lastReqId < UINT_MAX
    case PostNowOp(kind, _) =>
      c.lastReqId < UINT_MAX && !kind.NullReq? && (kind.SendReq? ==> c.posted.head == null)
    case PostPreparedOp(id, _) => id in handles && MayPost(handles[id], c.lastPostedTrigger, top)
    case PostBatchOp(ids, _) =>
      && (forall id :: id in ids ==> id in handles)
      && (forall i :: 0 <= i < |ids| ==> handles[ids[i]].status.Prepared?)
      && Rising(ids, if top < c.lastPostedTrigger then c.lastPostedTrigger else top)
    case WaitStreamOp(id) => id in handles && OnLine(handles[id], c.posted.head)
    case WaitBatchOp(ids) =>
      && (forall id :: id in ids ==> id in handles)
      && (forall i :: 0 <= i < |ids| ==> OnLine(handles[ids[i]], c.posted.head) && !handles[ids[i]].status.Complete?)
    case ProgressOp(_, _, _, _) => true
    case ProgressAllOp(ids, rounds) => (forall id :: id in ids ==> id in handles) && |rounds| == |ids|
    case WaitHostOp(ids, postWait, _) =>
      && (forall id :: id in ids ==> id in handles)
      && |postWait| == |ids| && (forall i, j :: 0 <= i < j < |ids| ==> ids[i] != ids[j])
  }

  method Perform(c: C.Client, pool: Pool, handles: map<nat, MpRequest>, top: nat, ghost lost: set<MpRequest>, op: Op)
    returns (h: map<nat, MpRequest>, newTop: nat, ghost nowLost: set<MpRequest>)
    requires Tidy(c, pool, handles, top, lost) && Allowed(c, handles, top, op)
    modifies c, pool, c.posted, pool.records
    ensures Tidy(c, pool, h, newTop, nowLost) && Did(op, old(c.abs), c.abs)
    ensures old(pool.records) <= pool.records && fresh(pool.records - old(pool.records))
  {
    h, newTop, nowLost := handles, top, lost;
    match op
    case SendPrepareOp => h := Prepare(c, pool, handles, top, lost);
    case SendDirectOp(wait) => h, newTop := SendDirect(c, pool, handles, top, lost, wait);
    case PostNowOp(kind, attempts) =>
      ghost var u, marks, n;
      h, newTop, nowLost, u, marks, n := PostNow(c, pool, handles, top, lost, kind, attempts);
    case PostPreparedOp(id, wait) => newTop := PostPrepared(c, pool, handles, top, lost, id, wait);
    case PostBatchOp(ids, wait) => newTop := PostBatch(c, pool, handles, top, lost, ids, wait);
    case WaitStreamOp(id) =>
      ghost var f := WaitStream(c, pool, handles, top, lost, id);
    case WaitBatchOp(ids) =>
      ghost var keys := WaitBatch(c, pool, handles, top, lost, ids);
    case ProgressOp(events, f, ok, polled) => Progresses(c, pool, handles, top, lost, events, f, ok, polled);
    case ProgressAllOp(ids, rounds) =>
      ghost var marks, keys, ret, failed := ProgressesAll(c, pool, handles, top, lost, ids, rounds);
    case WaitHostOp(ids, postWait, rounds) =>
      var out;
      ghost var marks, keys, verdict;
      h, out, marks, keys, verdict := WaitHost(c, pool, handles, top, lost, ids, postWait, rounds);
  }

  method Start() returns (c: C.Client, pool: Pool)
    ensures Tidy(c, pool, map[], 0, {}) && c.abs == INIT
    ensures fresh(c) && fresh(pool) && fresh(c.posted) && fresh(pool.records)
  {
    c := new C.Client();
    pool := new Pool();
    GoesHere(INIT);
    C.BatchNone(c);
    Seal(c, pool, map[], 0, {});
  }

  /** Each request held has a record of its own, in at most one queue and not free. */
  ghost predicate OneEach(c: C.Client, pool: Pool, handles: map<nat, MpRequest>)
    reads c, c.posted, pool
  {
    && (forall a, b :: a in handles && b in handles && a != b ==> handles[a] != handles[b])
    && (forall p, i: nat, q, j: nat {:trigger InQueueAt(c, p, i), InQueueAt(c, q, j)} ::
          InQueueAt(c, p, i) && InQueueAt(c, q, j) && Ownership.Queue(c, p)[i] == Ownership.Queue(c, q)[j] ==> p == q && i == j)
    && (forall p, i: nat {:trigger InQueueAt(c, p, i)} ::
          InQueueAt(c, p, i) ==> Ownership.Queue(c, p)[i] in handles.Values && Ownership.Queue(c, p)[i] !in pool.free)
  }

  ghost predicate InQueueAt(c: C.Client, p: Place, i: nat)
    reads c, c.posted
  {
    InQueue(p) && i < |Ownership.Queue(c, p)|
  }

  lemma EachOnce(c: C.Client, pool: Pool, handles: map<nat, MpRequest>, top: nat, lost: set<MpRequest>)
    requires Tidy(c, pool, handles, top, lost)
    ensures OneEach(c, pool, handles)
  {
    Unfold(c, pool, handles, top, lost);
    forall a, b | a in handles && b in handles && a != b ensures handles[a] != handles[b] {
      OthersDiffer(c.abs, c.book, a, handles[a]);
    }
    forall p, i: nat, q, j: nat | InQueueAt(c, p, i) && InQueueAt(c, q, j) && Ownership.Queue(c, p)[i] == Ownership.Queue(c, q)[j]
      ensures p == q && i == j
    {
      OnePlaceEach(c, pool, p, i, q, j);
    }
    forall p, i: nat | InQueueAt(c, p, i)
      ensures Ownership.Queue(c, p)[i] in handles.Values && Ownership.Queue(c, p)[i] !in pool.free
    {
      OnePlaceEach(c, pool, p, i, p, i);
      InPlaceOf(c, p, i);
    }
  }

  lemma {:induction false} CountValues(m: map<nat, MpRequest>)
    requires forall a, b :: a in m && b in m && a != b ==> m[a] != m[b]
    ensures |m.Values| == |m|
    decreases |m|
  {
    if m != map[] {
      var x :| x in m;
      var n := m - {x};
      CountValues(n);
      forall r ensures r in m.Values <==> r in n.Values || r == m[x] {
        if r in m.Values && r != m[x] {
          var y :| y in m && m[y] == r;
          assert y in n && n[y] == r;
        }
      }
      assert m.Values == n.Values + {m[x]};
      assert m[x] !in n.Values;
      assert m.Keys == n.Keys + {x};
      assert |n| == |n.Keys| && |m| == |m.Keys|;
    }
  }

  lemma Counted(free: nat, live: set<MpRequest>, handles: map<nat, MpRequest>, lost: set<MpRequest>, all: nat)
    requires live - handles.Values == lost && handles.Values <= live && free + |live| == all
    requires forall a, b :: a in handles && b in handles && a != b ==> handles[a] != handles[b]
    ensures live == handles.Values + lost && handles.Values !! lost
    ensures free + |handles| + |lost| == all
  {
    CountValues(handles);
    assert live == handles.Values + lost;
  }

  lemma LiveOnes(c: C.Client, pool: Pool, handles: map<nat, MpRequest>, top: nat, lost: set<MpRequest>)
    requires Tidy(c, pool, handles, top, lost)
    ensures pool.live - handles.Values == lost && handles.Values <= pool.live
    ensures |pool.free| + |pool.live| == REGION * pool.regions
  {
    assert Opened(0);
    pool.Look();
  }

  /** What being tidy comes to: conservation of records. */
  lemma Conserved(c: C.Client, pool: Pool, handles: map<nat, MpRequest>, top: nat, lost: set<MpRequest>)
    requires Tidy(c, pool, handles, top, lost)
    ensures pool.live == handles.Values + lost && handles.Values !! lost
    ensures |pool.free| + |handles| + |lost| == REGION * pool.regions
  {
    EachOnce(c, pool, handles, top, lost);
    LiveOnes(c, pool, handles, top, lost);
    Counted(|pool.free|, pool.live, handles, lost, REGION * pool.regions);
  }

  /** Operations are performed one after the other, up to the first that the program may not ask for. */
  method PerformAll(ops: seq<Op>)
    returns (c: C.Client, pool: Pool, handles: map<nat, MpRequest>, top: nat, n: nat,
             ghost lost: set<MpRequest>, ghost marks: seq<State>)
    ensures Tidy(c, pool, handles, top, lost) && History(ops, marks)
    ensures |marks| == n + 1 && marks[n] == c.abs && (n < |ops| ==> !Allowed(c, handles, top, ops[n]))
  {
    c, pool := Start();
    handles, top, n, lost := map[], 0, 0, {};
    marks := [INIT];
    while n < |ops| && Allowed(c, handles, top, ops[n])
      invariant n <= |ops| && Tidy(c, pool, handles, top, lost)
      invariant History(ops, marks) && |marks| == n + 1 && marks[n] == c.abs
      invariant fresh(c) && fresh(pool) && fresh(c.posted) && fresh(pool.records)
    {
      handles, top, lost := Perform(c, pool, handles, top, lost, ops[n]);
      HistoryOn(ops, marks, c.abs);
      marks, n := marks + [c.abs], n + 1;
    }
  }

  /** A request whose completion was polled is COMPLETE, if the program still holds it. */
  lemma HeldComplete(c: C.Client, pool: Pool, handles: map<nat, MpRequest>, top: nat, lost: set<MpRequest>, id: nat)
    requires Tidy(c, pool, handles, top, lost) && id in handles
    requires id in c.abs.tx.polled || id in c.abs.rx.polled
    ensures handles[id].status == Status.Complete
  {
    assert Opened(0);
    HeldSays(c, handles[id], id);
    PolledSays(c.abs, c.book, id, c.book.place[id], handles[id]);
  }

  lemma ValidNow(c: C.Client, pool: Pool, handles: map<nat, MpRequest>, top: nat, lost: set<MpRequest>)
    requires Tidy(c, pool, handles, top, lost)
    ensures c.Valid() && pool.Valid() && c.book.req == handles && c.abs.executed == c.executed
  {
    assert Opened(0);
  }

  /** Whatever an operation had the stream wait for is COMPLETE once the stream is past it. */
  ghost predicate WaitsKept(c: C.Client, handles: map<nat, MpRequest>, ops: seq<Op>, marks: seq<State>)
    requires |marks| <= |ops| + 1
    reads c, handles.Values
  {
    forall i: nat, id: nat {:trigger AsksFor(ops[i], marks[i], id)} ::
      i < |marks| - 1 && AsksFor(ops[i], marks[i], id) && |marks[i + 1].issued| <= c.executed && id in handles
      ==> handles[id].status == Status.Complete
  }

  lemma AllKept(c: C.Client, pool: Pool, handles: map<nat, MpRequest>, top: nat, lost: set<MpRequest>,
                ops: seq<Op>, marks: seq<State>)
    requires Tidy(c, pool, handles, top, lost) && History(ops, marks) && marks[|marks| - 1] == c.abs
    ensures WaitsKept(c, handles, ops, marks)
  {
    ValidNow(c, pool, handles, top, lost);
    forall i: nat, id: nat | i < |marks| - 1 && AsksFor(ops[i], marks[i], id) && |marks[i + 1].issued| <= c.executed
      && id in handles
      ensures handles[id].status == Status.Complete
    {
      PassedIsPolled(ops, marks, i, id);
      HeldComplete(c, pool, handles, top, lost, id);
    }
  }

  /**
    Any sequence of operations on a fresh client and pool, the engine's included, up to the first n < |ops|
    that the program may not ask for. marks are the client's machine states before and after each, and
    each operation took the machine from one to the next (SessionSpec.HistoryRun has the run through
    them). A request that some operation had the stream wait for is COMPLETE once the stream has run past
    what was queued by then. No record is in two places; the live records are exactly those of the
    requests the program holds and the lost ones, and with the free list they make up the regions.
   */
  method Drive(ops: seq<Op>)
    returns (c: C.Client, pool: Pool, handles: map<nat, MpRequest>, top: nat, n: nat,
             ghost lost: set<MpRequest>, ghost marks: seq<State>)
    ensures n <= |ops| && (n < |ops| ==> !Allowed(c, handles, top, ops[n]))
    ensures c.Valid() && |marks| == n + 1 && History(ops, marks) && marks[n] == c.abs
    ensures WaitsKept(c, handles, ops, marks)
    ensures c.book.req == handles && OneEach(c, pool, handles)
    ensures pool.Valid() && pool.live == handles.Values + lost && handles.Values !! lost
    ensures |pool.free| + |handles| + |lost| == REGION * pool.regions
  {
    c, pool, handles, top, n, lost, marks := PerformAll(ops);
    AllKept(c, pool, handles, top, lost, ops, marks);
    EachOnce(c, pool, handles, top, lost);
    Conserved(c, pool, handles, top, lost);
    ValidNow(c, pool, handles, top, lost);
  }
}
