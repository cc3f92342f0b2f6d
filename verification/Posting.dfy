/**
  Calls that hand their request to the NIC at once: mp_irecv, mp_isend and unsignalled mp_iput. While
  the NIC's queue is full they make progress on the flow and try again.
 */
module Posting {
  import opened Requests
  import opened EventSync
  import opened EventSyncInvariant
  import opened EventSyncTheorems
  import opened Ledger
  import opened ProgressSpec
  import opened Progress
  import opened ProgressEffect
  import opened RequestPool
  import opened HostWait
  import C = Client

  const ENOMEM := 12

  /** MP_MAX_PROGRESS_FLOW_TRY */
  const MAX_TRIES := 100

  /** What one attempt to post comes to; after ENOMEM the stream and the NIC move and a flow is polled. */
  datatype Attempt =
    | Taken
    | Full(events: seq<Event>, ok: nat -> bool, polled: int)
    | Refused(error: int)

  /** The attempts were answered with ENOMEM up to n, and every progress call in between went well. */
  predicate FullUntil(attempts: nat -> Attempt, n: nat) {
    forall i: nat :: i < n ==> attempts(i).Full? && attempts(i).polled >= 0
  }

  /** The number of attempts: it ends at the first answer, a failed progress call, or the limit. */
  predicate EndsAt(attempts: nat -> Attempt, n: nat) {
    && n <= MAX_TRIES && FullUntil(attempts, n)
    && (attempts(n).Full? && attempts(n).polled >= 0 ==> n == MAX_TRIES)
  }

  function Answer(a: Attempt): (ret: int) {
    match a
    case Taken => C.MP_SUCCESS
    case Full(_, _, _) => ENOMEM
    case Refused(error) => if error == C.MP_SUCCESS || error == ENOMEM then C.MP_FAILURE else error
  }

  /** The progress call on flow f after an attempt that met a full queue. */
  ghost predicate TriedOnce(s: State, t: State, f: Flow, a: Attempt) {
    a.Full? && Leads(s, t) && Turned(s, t, f, a.events, a.ok, a.polled)
  }

  /** The machine before the first attempt and after each progress call on flow f that followed a full queue. */
  ghost predicate Tries(marks: seq<State>, f: Flow, attempts: nat -> Attempt) {
    && |marks| > 0
    && forall i: nat {:trigger attempts(i)} :: i < |marks| - 1 ==> TriedOnce(marks[i], marks[i + 1], f, attempts(i))
  }

  lemma TriesOn(marks: seq<State>, f: Flow, attempts: nat -> Attempt, t: State)
    requires Tries(marks, f, attempts) && TriedOnce(marks[|marks| - 1], t, f, attempts(|marks| - 1))
    ensures Tries(marks + [t], f, attempts)
  {
    var all := marks + [t];
    forall i: nat {:trigger attempts(i)} | i < |all| - 1 ensures TriedOnce(all[i], all[i + 1], f, attempts(i)) {
      if i < |marks| - 1 { assert all[i + 1] == marks[i + 1]; }
    }
  }

  /** n attempts were answered by a full queue and progress; the last may have been as well. */
  predicate TriedFor(marks: seq<State>, attempts: nat -> Attempt, n: nat) {
    |marks| == n + 1 + if attempts(n).Full? then 1 else 0
  }

  /** A request in hand stays in hand while the engine moves. */
  lemma StaysInHand(c: C.Client, s: State, r: MpRequest)
    requires Leads(s, c.abs) && Spare(s, c.book, r.id) && r !in c.book.req.Values && Unlinked(r)
    ensures c.InHand(r)
  {
    LeadsUnused(s, c.abs, r.id);
  }

  method ProgressOnce(c: C.Client, r: MpRequest, f: Flow, a: Attempt) returns (ret: int)
    requires C.Ready(c) && c.InHand(r) && a.Full?
    modifies c`lastDoneId, c`executed, c`lastTrigger, c`tx, c`rx, c`abs, c`book, c.posted
    modifies c.book.req.Values`next, c.book.req.Values`prev, c.book.req.Values`status
    ensures C.Ready(c) && c.InHand(r) && Leads(old(c.abs), c.abs) && c.book.req == old(c.book).req
    ensures TriedOnce(old(c.abs), c.abs, f, a)
    ensures ret == if a.polled < 0 then C.MP_FAILURE else C.MP_SUCCESS
  {
    C.Look(c);
    ret := Turn(c, f, a.events, a.ok, a.polled);
    StaysInHand(c, old(c.abs), r);
  }

  /**
    mp_post_send and mp_post_recv: n attempts met a full queue, with progress on flow f after each; the
    next was answered, or its progress call failed, or it was the 101st.
   */
  method PostRetrying(c: C.Client, r: MpRequest, f: Flow, attempts: nat -> Attempt)
    returns (ret: int, ghost n: nat, ghost marks: seq<State>)
    requires C.Ready(c) && c.InHand(r)
    modifies c`lastDoneId, c`executed, c`lastTrigger, c`tx, c`rx, c`abs, c`book, c.posted
    modifies c.book.req.Values`next, c.book.req.Values`prev, c.book.req.Values`status
    ensures C.Ready(c) && c.InHand(r) && Leads(old(c.abs), c.abs) && c.book.req == old(c.book).req
    ensures Tries(marks, f, attempts) && TriedFor(marks, attempts, n) && marks[0] == old(c.abs) && marks[|marks| - 1] == c.abs
    ensures n <= 100 && forall i: nat :: i < n ==> attempts(i).Full? && attempts(i).polled >= 0
    ensures attempts(n).Full? && attempts(n).polled >= 0 ==> n == 100
    ensures EndsAt(attempts, n) && ret == Answer(attempts(n))
    ensures (ret == C.MP_SUCCESS <==> attempts(n).Taken?) && (ret == ENOMEM <==> attempts(n).Full?)
  {
    LeadsHere(c.abs);
    var retries := 0;
    ret, marks := ENOMEM, [c.abs];
    while true
      invariant retries <= MAX_TRIES && FullUntil(attempts, retries)
      invariant C.Ready(c) && c.InHand(r) && Leads(old(c.abs), c.abs) && c.book.req == old(c.book).req
      invariant Tries(marks, f, attempts) && |marks| == retries + 1 && marks[0] == old(c.abs) && marks[retries] == c.abs
      decreases MAX_TRIES - retries
    {
      var a := attempts(retries);
      ret, n := Answer(a), retries;
      if !a.Full? {
        return;
      }
      ghost var s := c.abs;
      var err := ProgressOnce(c, r, f, a);
      LeadsBoth(old(c.abs), s, c.abs);
      TriesOn(marks, f, attempts, c.abs);
      marks := marks + [c.abs];
      if err != C.MP_SUCCESS || retries == MAX_TRIES {
        return;
      }
      retries := retries + 1;
    }
  }

  /** The machine before the id of a request in hand was drawn. */
  function Undrawn(t: State): (s: State)
    requires t.lastReqId > 0
  {
    t.(lastReqId := t.lastReqId - 1)
  }

  /** Drawing an id and then letting the engine move is the same as the other way round. */
  lemma DrawnFirst(s: State, t: State)
    requires Leads(Fresh(s), t)
    ensures t.lastReqId == s.lastReqId + 1 && Leads(s, Undrawn(t)) && t == Fresh(Undrawn(t))
    ensures s.tx.posted == [] ==> t.tx.posted == []
  {
    LeadsUnused(Fresh(s), t, 0);
    LeadsUndrawn(Fresh(s), t, s.lastReqId);
  }

  lemma InHandApart(c: C.Client, pool: Pool, r: MpRequest)
    requires c.Valid() && pool.Valid() && c.Owns(pool) && r in pool.live && r !in c.book.req.Values
    ensures r !in pool.free && r !in c.posted.items
    ensures forall x :: x in c.book.req.Values ==> x !in pool.free
  {
    pool.Look();
    ItemsInBook(c);
  }

  /** new_request for a call that posts at once, with the flags set. */
  method DrawFlagged(c: C.Client, pool: Pool, kind: ReqType, nowait: bool) returns (r: MpRequest)
    requires c.Valid() && pool.Valid() && c.Owns(pool) && c.lastReqId < UINT_MAX
    modifies c`lastReqId, c`tx, c`rx, c`abs, c`book, pool, pool.free
    ensures c.Valid() && pool.Valid() && c.Owns(pool) && c.InHand(r) && c.book == old(c.book)
    ensures c.abs == Fresh(old(c.abs)) && r.id == c.lastReqId
    ensures ViewOf(r) == View(r.id, kind, PendingNowait, nowait, false)
    ensures r !in old(pool.live) && pool.live == old(pool.live) + {r} && (r in old(pool.free) || fresh(r))
    ensures old(pool.records) <= pool.records && fresh(pool.records - old(pool.records))
  {
    r := c.NewStreamRequest(pool, kind, PendingNowait);
    InHandApart(c, pool, r);
    r.nowait := nowait;
  }

  method DrawReady(c: C.Client, pool: Pool, kind: ReqType, nowait: bool) returns (r: MpRequest)
    requires C.Ready(c) && pool.Valid() && c.Owns(pool) && c.lastReqId < UINT_MAX
    modifies c`lastReqId, c`tx, c`rx, c`abs, c`book, pool, pool.free
    ensures C.Ready(c) && pool.Valid() && c.Owns(pool) && c.InHand(r) && c.book == old(c.book)
    ensures c.abs == Fresh(old(c.abs)) && r.id == c.abs.lastReqId == c.lastReqId
    ensures ViewOf(r) == View(r.id, kind, PendingNowait, nowait, false)
    ensures r !in old(pool.live) && pool.live == old(pool.live) + {r} && (r in old(pool.free) || fresh(r))
    ensures old(pool.records) <= pool.records && fresh(pool.records - old(pool.records))
    ensures forall x :: x in c.book.req.Values ==> x !in pool.free
  {
    C.Look(c);
    FreshKeeps(c.abs);
    r := DrawFlagged(c, pool, kind, nowait);
    InHandApart(c, pool, r);
  }

  /** The request is drawn, and posting it is tried. */
  method DrawAndTry(c: C.Client, pool: Pool, kind: ReqType, nowait: bool, f: Flow, attempts: nat -> Attempt)
    returns (ret: int, r: MpRequest, ghost u: State, ghost n: nat, ghost marks: seq<State>)
    requires C.Ready(c) && pool.Valid() && c.Owns(pool) && c.lastReqId < UINT_MAX
    modifies c`lastReqId, c`lastDoneId, c`executed, c`lastTrigger, c`tx, c`rx, c`abs, c`book, c.posted
    modifies c.book.req.Values`next, c.book.req.Values`prev, c.book.req.Values`status, pool, pool.free
    ensures C.Ready(c) && pool.Valid() && c.Owns(pool) && c.InHand(r) && c.book.req == old(c.book).req
    ensures Leads(old(c.abs), u) && c.abs == Fresh(u) && r.id == u.lastReqId + 1 && u.lastReqId == old(c.abs).lastReqId < UINT_MAX
    ensures old(c.abs).tx.posted == [] ==> u.tx.posted == []
    ensures ViewOf(r) == View(r.id, kind, PendingNowait, nowait, false)
    ensures r !in old(pool.live) && pool.live == old(pool.live) + {r} && (r in old(pool.free) || fresh(r))
    ensures old(pool.records) <= pool.records && fresh(pool.records - old(pool.records))
    ensures EndsAt(attempts, n) && ret == Answer(attempts(n))
    ensures Tries(marks, f, attempts) && TriedFor(marks, attempts, n) && marks[0] == Fresh(old(c.abs)) && marks[|marks| - 1] == c.abs
  {
    ghost var s := c.abs;
    C.Look(c);
    r := DrawReady(c, pool, kind, nowait);
    ret, n, marks := PostRetrying(c, r, f, attempts);
    DrawnFirst(s, c.abs);
    u := Undrawn(c.abs);
  }

  /** The request was taken: it is in the queue it belongs to. */
  method PostTaken(c: C.Client, r: MpRequest, ghost u: State)
    requires C.Ready(c) && c.InHand(r) && c.abs == Fresh(u) && r.id == u.lastReqId + 1 && u.lastReqId < UINT_MAX
    requires r.status == PendingNowait && !r.trigger && !r.kind.NullReq? && (r.nowait <==> r.kind.RdmaReq?)
    modifies c`tx, c`rx, c`abs, c`book
    ensures C.Batching(c, []) && c.abs == Apply(u, StepOf(r.kind))
    ensures Entry(c.book, r.id, PlaceOf(r.kind), r) && c.book.req == old(c.book).req[r.id := r]
  {
    C.Look(c);
    FreshSteps(u);
    if r.kind.RecvReq? {
      c.PostRecv(r);
    } else if r.kind.SendReq? {
      c.PostSend(r);
    } else {
      c.PostPut(r);
    }
    C.BatchNone(c);
  }

  function StepOf(kind: ReqType): (e: Step) { if kind.RecvReq? then Irecv else if kind.SendReq? then IsendNow else PutNowait }

  function PlaceOf(kind: ReqType): (p: Place) {
    if kind.RecvReq? then AtNic(RX) else if kind.SendReq? then AtNic(TX) else Idle
  }

  lemma NotTaken(c: C.Client, u: State)
    requires C.Ready(c) && c.abs == Fresh(u) && u.lastReqId < UINT_MAX
    ensures C.Batching(c, []) && c.abs == Apply(u, PutNowait)
  {
    C.Look(c);
    C.BatchNone(c);
  }

  /**
    mp_irecv, mp_isend and mp_iput with MP_PUT_NOWAIT. In between the engine may have moved the machine
    to u. If the request was taken, the call is the machine's step from there. If not, its id is spent:
    the record stays drawn, in no queue and unknown to the caller.
   */
  method PostAtOnce(c: C.Client, pool: Pool, kind: ReqType, attempts: nat -> Attempt)
    returns (ret: int, r: MpRequest, ghost u: State, ghost n: nat, ghost marks: seq<State>)
    requires C.Ready(c) && pool.Valid() && c.Owns(pool) && c.lastReqId < UINT_MAX && !kind.NullReq?
    modifies c`lastReqId, c`lastDoneId, c`executed, c`lastTrigger, c`tx, c`rx, c`abs, c`book, c.posted
    modifies c.book.req.Values`next, c.book.req.Values`prev, c.book.req.Values`status, pool, pool.free
    ensures C.Batching(c, []) && pool.Valid() && c.Owns(pool)
    ensures Leads(old(c.abs), u) && u.lastReqId == old(c.abs).lastReqId < UINT_MAX
    ensures old(c.abs).tx.posted == [] ==> u.tx.posted == []
    ensures c.abs == Apply(u, if ret == C.MP_SUCCESS then StepOf(kind) else PutNowait) && r.id == u.lastReqId + 1
    ensures ret == C.MP_SUCCESS ==> Entry(c.book, r.id, PlaceOf(kind), r) && c.book.req == old(c.book).req[r.id := r]
    ensures ret != C.MP_SUCCESS ==> c.book.req == old(c.book).req
    ensures r !in old(pool.live) && pool.live == old(pool.live) + {r} && (r in old(pool.free) || fresh(r))
    ensures old(pool.records) <= pool.records && fresh(pool.records - old(pool.records))
    ensures EndsAt(attempts, n) && ret == Answer(attempts(n)) && (ret == C.MP_SUCCESS <==> attempts(n).Taken?)
    ensures Tries(marks, if kind.RecvReq? then RX else TX, attempts) && TriedFor(marks, attempts, n)
    ensures marks[0] == Fresh(old(c.abs)) && marks[|marks| - 1] == Fresh(u)
  {
    ret, r, u, n, marks := DrawAndTry(c, pool, kind, kind.RdmaReq?, if kind.RecvReq? then RX else TX, attempts);
    if ret == C.MP_SUCCESS {
      PostTaken(c, r, u);
    } else {
      NotTaken(c, u);
    }
  }
}
