/**
  The bookkeeping that ties the request records of a client to the event-sync machine: which live id
  has which record, in which queue it is, and what its record must say.
 */
module Ledger {
  import opened Requests
  import opened EventSync

  /** Where a live request is. */
  datatype Place =
    | Idle               // in no queue: an unsignalled put
    | AtPrepared
    | AtPosted
    | AtNic(flow: Flow)
    | AtCq(flow: Flow)
    | AtDone(flow: Flow)

  predicate StatusAt(p: Place, st: Status) {
    match p
    case Idle => st == PendingNowait
    case AtPrepared | AtPosted => st == Status.Prepared
    case AtNic(_) | AtCq(_) => st == PendingNowait || st == Pending
    case AtDone(_) => st == Status.Complete
  }

  /** Only an unsignalled put is in no queue; only plain sends are prepared and deferred. */
  predicate KindAt(p: Place, kind: ReqType, nowait: bool) {
    && (nowait <==> p.Idle?)
    && (p.Idle? ==> kind == RdmaReq)
    && (p.AtPrepared? || p.AtPosted? ==> kind == SendReq)
  }

  function FlowOf(k: ReqType): (f: Flow) { if IsTx(k) then TX else RX }

  /** A request of flow f is in the queue its place names. */
  predicate InPlace(s: State, id: nat, f: Flow, p: Place) {
    match p
    case Idle => true
    case AtPrepared => f == TX && id in s.prepared
    case AtPosted => f == TX && id in s.tx.posted
    case AtNic(g) => f == g && id in LaneOf(s, g).nic
    case AtCq(g) => f == g && id in LaneOf(s, g).cq
    case AtDone(g) => f == g && id in LaneOf(s, g).polled
  }

  /** The fields of a record the protocol depends on. */
  datatype View = View(id: nat, kind: ReqType, status: Status, nowait: bool, trigger: bool)

  function ViewOf(r: MpRequest): (v: View)
    reads r
  {
    View(r.id, r.kind, r.status, r.nowait, r.trigger)
  }

  /** Ghost account of the live requests: where each is, its record, and what the record says. */
  datatype Book = Book(place: map<nat, Place>, req: map<nat, MpRequest>, says: map<nat, View>)

  ghost function Put(g: Book, x: nat, p: Place, r: MpRequest, v: View): (h: Book) {
    Book(g.place[x := p], g.req[x := r], g.says[x := v])
  }

  /** Moving a request leaves its record what it was. */
  lemma PutSame(g: Book, x: nat, p: Place, r: MpRequest, v: View)
    requires x in g.req && g.req[x] == r
    ensures Put(g, x, p, r, v).req == g.req
  {
  }

  /** Of the live records m uses, a drawn one and a dropped one make no difference to the rest. */
  lemma DrawnApart(live: set<MpRequest>, m: map<nat, MpRequest>, x: nat, r: MpRequest)
    requires r !in live && m.Values <= live && x !in m
    ensures (live + {r}) - m[x := r].Values == live - m.Values
  {
    var n := m[x := r];
    assert n[x] == r;
    assert forall id :: id in m ==> id in n && n[id] == m[id];
  }

  lemma DroppedApart(live: set<MpRequest>, m: map<nat, MpRequest>, x: nat)
    requires x in m && forall id :: id in m && id != x ==> m[id] != m[x]
    ensures (live - {m[x]}) - (m - {x}).Values == live - m.Values
  {
    var n := m - {x};
    forall r ensures r in n.Values <==> r in m.Values && r != m[x] {
      if r in m.Values && r != m[x] {
        var id :| id in m && m[id] == r;
        assert id in n && n[id] == r;
      }
    }
  }

  ghost predicate At(g: Book, x: nat, p: Place) { x in g.place && x in g.req && g.place[x] == p }

  /** The queue q holds the records of ids, in order, and all of them are at place p. */
  ghost predicate Holds(g: Book, q: seq<MpRequest>, ids: seq<nat>, p: Place) {
    && |q| == |ids|
    && (forall i, j {:trigger Differ(ids, i, j)} :: Differ(ids, i, j))
    && (forall i {:trigger Sits(g, ids[i], p, q[i])} :: 0 <= i < |q| ==> Sits(g, ids[i], p, q[i]))
  }

  predicate Differ(ids: seq<nat>, i: int, j: int) { 0 <= i < j < |ids| ==> ids[i] != ids[j] }

  ghost predicate Sits(g: Book, x: nat, p: Place, r: MpRequest) { At(g, x, p) && g.req[x] == r }

  lemma QueueKept(g: Book, q: seq<MpRequest>, ids: seq<nat>, p: Place, x: nat, b: Place, r: MpRequest, v: View)
    requires Holds(g, q, ids, p) && !At(g, x, p)
    ensures Holds(Put(g, x, b, r, v), q, ids, p)
  {
    var h := Put(g, x, b, r, v);
    forall i | 0 <= i < |q| ensures Sits(h, ids[i], p, q[i]) { assert Sits(g, ids[i], p, q[i]); }
  }

  lemma QueueGrows(g: Book, q: seq<MpRequest>, ids: seq<nat>, p: Place, x: nat, r: MpRequest, v: View)
    requires Holds(g, q, ids, p) && !At(g, x, p)
    ensures Holds(Put(g, x, p, r, v), q + [r], ids + [x], p)
  {
    var h, q', ids' := Put(g, x, p, r, v), q + [r], ids + [x];
    forall i | 0 <= i < |q'| ensures Sits(h, ids'[i], p, q'[i]) {
      if i < |q| { assert Sits(g, ids[i], p, q[i]); }
    }
    forall i, j | 0 <= i < j < |ids'| ensures Differ(ids', i, j) {
      assert Sits(g, ids[i], p, q[i]) && Differ(ids, i, j);
    }
  }

  lemma QueueShrinks(g: Book, q: seq<MpRequest>, ids: seq<nat>, p: Place, b: Place, v: View)
    requires Holds(g, q, ids, p) && q != []
    ensures Holds(Put(g, ids[0], b, q[0], v), q[1..], ids[1..], p)
    ensures At(g, ids[0], p) && g.req[ids[0]] == q[0]
  {
    var h, q', ids' := Put(g, ids[0], b, q[0], v), q[1..], ids[1..];
    assert Sits(g, ids[0], p, q[0]);
    forall i | 0 <= i < |q'| ensures Sits(h, ids'[i], p, q'[i]) {
      assert Sits(g, ids[i + 1], p, q[i + 1]) && Differ(ids, 0, i + 1);
    }
    forall i, j | 0 <= i < j < |ids'| ensures Differ(ids', i, j) { assert Differ(ids, i + 1, j + 1); }
  }

  /** What the record of request id must say in view of the abstract state. */
  ghost predicate ViewOk(s: State, id: nat, p: Place, v: View) {
    && v.id == id && 1 <= id <= s.lastReqId
    && v.kind != NullReq
    && StatusAt(p, v.status)
    && KindAt(p, v.kind, v.nowait)
    && InPlace(s, id, FlowOf(v.kind), p)
    && (v.trigger <==> id in LaneOf(s, FlowOf(v.kind)).triggered)
    && (id in s.tx.polled || id in s.rx.polled ==> p.AtDone?)
  }

  ghost predicate Views(s: State, g: Book) {
    && g.req.Keys == g.place.Keys == g.says.Keys
    && forall id {:trigger ViewOk(s, id, g.place[id], g.says[id])} ::
         id in g.says ==> ViewOk(s, id, g.place[id], g.says[id])
  }

  /** The account is about the records as they are in the heap. */
  ghost predicate Faithful(g: Book)
    reads g.req.Values
  {
    && g.req.Keys == g.says.Keys == g.place.Keys
    && forall id {:trigger Matches(g.req[id], g.says[id], g.place[id])} ::
         id in g.req ==> Matches(g.req[id], g.says[id], g.place[id])
  }

  /** It is right about every record but that of request x. */
  ghost predicate FaithfulBut(g: Book, x: nat)
    reads g.req.Values
  {
    && g.req.Keys == g.says.Keys == g.place.Keys
    && forall id {:trigger Matches(g.req[id], g.says[id], g.place[id])} ::
         id in g.req && id != x ==> Matches(g.req[id], g.says[id], g.place[id])
  }

  /** The record says v, and is linked to others only while on the posted list. */
  predicate Matches(r: MpRequest, v: View, p: Place)
    reads r
  {
    ViewOf(r) == v && (!p.AtPosted? ==> Unlinked(r))
  }

  predicate Unlinked(r: MpRequest)
    reads r
  {
    r.next == null && r.prev == null
  }

  /** t says about request id what s said. */
  predicate LaneAgrees(l: Lane, m: Lane, id: nat) {
    && (id in l.posted ==> id in m.posted)
    && (id in l.nic ==> id in m.nic)
    && (id in l.cq ==> id in m.cq)
    && (id in l.polled <==> id in m.polled)
    && (id in l.triggered <==> id in m.triggered)
  }

  predicate Agrees(s: State, t: State, id: nat) {
    && s.lastReqId <= t.lastReqId
    && (id in s.prepared ==> id in t.prepared)
    && LaneAgrees(s.tx, t.tx, id)
    && LaneAgrees(s.rx, t.rx, id)
  }

  lemma ViewKept(s: State, t: State, id: nat, p: Place, v: View)
    requires ViewOk(s, id, p, v) && Agrees(s, t, id)
    ensures ViewOk(t, id, p, v)
  {
  }

  /** One request moved, changed or was added; what the others say stays true. */
  lemma ViewsMoved(s: State, t: State, g: Book, x: nat, p: Place, r: MpRequest, v: View)
    requires Views(s, g) && ViewOk(t, x, p, v)
    requires forall id :: id in g.says && id != x ==> Agrees(s, t, id)
    ensures Views(t, Put(g, x, p, r, v))
  {
    var h := Put(g, x, p, r, v);
    forall id | id in h.says ensures ViewOk(t, id, h.place[id], h.says[id]) {
      if id != x { ViewKept(s, t, id, g.place[id], g.says[id]); }
    }
  }

  /** Only the record of request x changed in the heap. */
  lemma FaithfulPut(g: Book, x: nat, p: Place, r: MpRequest)
    requires FaithfulBut(g, x) && ViewOf(r).id == x && (p.AtPosted? || Unlinked(r))
    ensures Faithful(Put(g, x, p, r, ViewOf(r)))
  {
    var h := Put(g, x, p, r, ViewOf(r));
    forall id | id in h.req ensures Matches(h.req[id], h.says[id], h.place[id]) {
      if id != x { assert Matches(g.req[id], g.says[id], g.place[id]); }
    }
  }

  /** A request changes its place only. */
  lemma FaithfulMove(g: Book, x: nat, p: Place, b: Place, r: MpRequest)
    requires Faithful(g) && Entry(g, x, p, r) && ViewOf(r) == g.says[x] && r.id == x && Unlinked(r)
    ensures Faithful(Put(g, x, b, r, g.says[x]))
  {
    FaithfulPut(g, x, b, r);
  }

  /** A live request, its place and its record. */
  ghost predicate Entry(g: Book, x: nat, p: Place, r: MpRequest) {
    At(g, x, p) && g.req[x] == r && x in g.says
  }

  /** A flow's counters, its work queue on the NIC and its completion queue. */
  datatype FlowRegs = FlowRegs(
    lastPostedTracked: nat,
    lastTracked: nat,
    nic: seq<MpRequest>,
    cq: seq<MpRequest>)

  ghost predicate FlowOk(l: Lane, c: FlowRegs, g: Book, f: Flow) {
    && c.lastPostedTracked == l.lastPostedTracked
    && c.lastTracked == l.lastTracked
    && Holds(g, c.nic, l.nic, AtNic(f))
    && Holds(g, c.cq, l.cq, AtCq(f))
  }

  lemma FlowKept(l: Lane, c: FlowRegs, g: Book, f: Flow, x: nat, b: Place, r: MpRequest, v: View)
    requires FlowOk(l, c, g, f) && !At(g, x, AtNic(f)) && !At(g, x, AtCq(f))
    ensures FlowOk(l, c, Put(g, x, b, r, v), f)
  {
    QueueKept(g, c.nic, l.nic, AtNic(f), x, b, r, v);
    QueueKept(g, c.cq, l.cq, AtCq(f), x, b, r, v);
  }

  /** No set or queue of the machine mentions an id that was not drawn yet. */
  ghost predicate Drawn(s: State) {
    && (forall id :: id in s.prepared ==> id <= s.lastReqId)
    && (forall id :: id in s.tx.polled || id in s.tx.triggered ==> id <= s.lastReqId)
    && (forall id :: id in s.rx.polled || id in s.rx.triggered ==> id <= s.lastReqId)
  }

  /** The client's queues and records amount to the state s of the machine. */
  ghost predicate Account(s: State, g: Book, tx: FlowRegs, rx: FlowRegs, items: seq<MpRequest>) {
    && Drawn(s)
    && FlowOk(s.tx, tx, g, TX)
    && FlowOk(s.rx, rx, g, RX)
    && Holds(g, items, s.tx.posted, AtPosted)
    && s.rx.posted == []
    && Views(s, g)
  }

  /** Drawing an id changes no queue. */
  lemma DrawAccount(s: State, g: Book, tx: FlowRegs, rx: FlowRegs, items: seq<MpRequest>)
    requires Account(s, g, tx, rx, items)
    ensures Account(Fresh(s), g, tx, rx, items)
  {
    forall id | id in g.says ensures ViewOk(Fresh(s), id, g.place[id], g.says[id]) {
      ViewKept(s, Fresh(s), id, g.place[id], g.says[id]);
    }
  }

  /** Nothing mentions the new id yet. */
  lemma DrawSpare(s: State, g: Book, tx: FlowRegs, rx: FlowRegs, items: seq<MpRequest>)
    requires Account(s, g, tx, rx, items)
    ensures Spare(Fresh(s), g, s.lastReqId + 1)
  {
    QueueDrawn(s, g, tx.nic, s.tx.nic, AtNic(TX));
    QueueDrawn(s, g, tx.cq, s.tx.cq, AtCq(TX));
    QueueDrawn(s, g, rx.nic, s.rx.nic, AtNic(RX));
    QueueDrawn(s, g, rx.cq, s.rx.cq, AtCq(RX));
    QueueDrawn(s, g, items, s.tx.posted, AtPosted);
    assert forall id :: id in g.says ==> ViewOk(s, id, g.place[id], g.says[id]);
  }

  lemma QueueDrawn(s: State, g: Book, q: seq<MpRequest>, ids: seq<nat>, p: Place)
    requires Holds(g, q, ids, p) && Views(s, g)
    ensures forall x :: x in ids ==> x <= s.lastReqId
  {
    forall i | 0 <= i < |ids| ensures ids[i] <= s.lastReqId {
      assert Sits(g, ids[i], p, q[i]);
      assert ViewOk(s, ids[i], g.place[ids[i]], g.says[ids[i]]);
    }
  }

  /** An id that was drawn, but is in no queue and has no record in the account. */
  ghost predicate Spare(s: State, g: Book, x: nat) { 1 <= x <= s.lastReqId && Unused(s, x) && x !in g.req }

  function PrepareState(s: State, x: nat): (t: State) { s.(prepared := s.prepared + {x}) }

  /** A drawn request is kept for a later post call. */
  lemma PrepareAccount(s: State, g: Book, tx: FlowRegs, rx: FlowRegs, items: seq<MpRequest>, x: nat, r: MpRequest)
    requires Account(s, g, tx, rx, items) && Spare(s, g, x)
    ensures var v := View(x, SendReq, Status.Prepared, false, false);
      Account(PrepareState(s, x), Put(g, x, AtPrepared, r, v), tx, rx, items)
  {
    var v := View(x, SendReq, Status.Prepared, false, false);
    FlowKept(s.tx, tx, g, TX, x, AtPrepared, r, v);
    FlowKept(s.rx, rx, g, RX, x, AtPrepared, r, v);
    QueueKept(g, items, s.tx.posted, AtPosted, x, AtPrepared, r, v);
    ViewsMoved(s, PrepareState(s, x), g, x, AtPrepared, r, v);
  }

  function NicState(s: State, f: Flow, x: nat): (t: State) {
    var l := LaneOf(s, f);
    WithLane(s, f, l.(nic := l.nic + [x]))
  }

  /** The calls that draw a request, in two parts. */
  lemma FreshSteps(s: State)
    requires s.lastReqId < UINT_MAX
    ensures Apply(s, SendPrepare) == PrepareState(Fresh(s), s.lastReqId + 1)
    ensures Apply(s, Irecv) == NicState(Fresh(s), RX, s.lastReqId + 1)
    ensures Apply(s, IsendNow) == NicState(Fresh(s), TX, s.lastReqId + 1)
    ensures Apply(s, PutNowait) == Fresh(s)
  {
  }

  /** Preparing a fresh send and accepting it at once is the deferred send. */
  lemma DirectSteps(s: State, t: State, x: nat)
    requires s.lastReqId < UINT_MAX && t == Fresh(s) && x == s.lastReqId + 1 && x !in s.prepared
    ensures Accept(PrepareState(t, x), x) == Apply(s, IsendOnStream)
    ensures TrackWait(Accept(PrepareState(t, x), x), TX, x) == Apply(s, SendOnStream)
  {
    assert s.prepared + {x} - {x} == s.prepared - {x};
  }

  /** A drawn send handed straight to the NIC. */
  lemma NicAccountTx(s: State, g: Book, tx: FlowRegs, rx: FlowRegs, items: seq<MpRequest>, x: nat, r: MpRequest)
    requires Account(s, g, tx, rx, items) && Spare(s, g, x)
    ensures var v := View(x, SendReq, PendingNowait, false, false);
      Account(NicState(s, TX, x), Put(g, x, AtNic(TX), r, v), tx.(nic := tx.nic + [r]), rx, items)
  {
    var v, p := View(x, SendReq, PendingNowait, false, false), AtNic(TX);
    QueueGrows(g, tx.nic, s.tx.nic, p, x, r, v);
    QueueKept(g, tx.cq, s.tx.cq, AtCq(TX), x, p, r, v);
    FlowKept(s.rx, rx, g, RX, x, p, r, v);
    QueueKept(g, items, s.tx.posted, AtPosted, x, p, r, v);
    ViewsMoved(s, NicState(s, TX, x), g, x, p, r, v);
  }

  /** A drawn receive posted to the NIC. */
  lemma NicAccountRx(s: State, g: Book, tx: FlowRegs, rx: FlowRegs, items: seq<MpRequest>, x: nat, r: MpRequest)
    requires Account(s, g, tx, rx, items) && Spare(s, g, x)
    ensures var v := View(x, RecvReq, PendingNowait, false, false);
      Account(NicState(s, RX, x), Put(g, x, AtNic(RX), r, v), tx, rx.(nic := rx.nic + [r]), items)
  {
    var v, p := View(x, RecvReq, PendingNowait, false, false), AtNic(RX);
    QueueGrows(g, rx.nic, s.rx.nic, p, x, r, v);
    QueueKept(g, rx.cq, s.rx.cq, AtCq(RX), x, p, r, v);
    FlowKept(s.tx, tx, g, TX, x, p, r, v);
    QueueKept(g, items, s.tx.posted, AtPosted, x, p, r, v);
    ViewsMoved(s, NicState(s, RX, x), g, x, p, r, v);
  }

  /** An unsignalled put stays in no queue: no completion will ever name it. */
  lemma NowaitAccount(s: State, g: Book, tx: FlowRegs, rx: FlowRegs, items: seq<MpRequest>, x: nat, r: MpRequest)
    requires Account(s, g, tx, rx, items) && Spare(s, g, x)
    ensures var v := View(x, RdmaReq, PendingNowait, true, false);
      Account(s, Put(g, x, Idle, r, v), tx, rx, items)
  {
    var v := View(x, RdmaReq, PendingNowait, true, false);
    FlowKept(s.tx, tx, g, TX, x, Idle, r, v);
    FlowKept(s.rx, rx, g, RX, x, Idle, r, v);
    QueueKept(g, items, s.tx.posted, AtPosted, x, Idle, r, v);
    ViewsMoved(s, s, g, x, Idle, r, v);
  }

  lemma AcceptViews(s: State, g: Book, x: nat, r: MpRequest)
    requires Views(s, g) && Entry(g, x, AtPrepared, r)
    ensures Views(Accept(s, x), Put(g, x, AtPosted, r, g.says[x]))
  {
    assert ViewOk(s, x, g.place[x], g.says[x]);
    ViewsMoved(s, Accept(s, x), g, x, AtPosted, r, g.says[x]);
  }

  /** A prepared send joins the posted list. */
  lemma AcceptAccount(s: State, g: Book, tx: FlowRegs, rx: FlowRegs, items: seq<MpRequest>, x: nat, r: MpRequest)
    requires Account(s, g, tx, rx, items) && Entry(g, x, AtPrepared, r)
    ensures Account(Accept(s, x), Put(g, x, AtPosted, r, g.says[x]), tx, rx, items + [r])
  {
    var v := g.says[x];
    FlowKept(s.tx, tx, g, TX, x, AtPosted, r, v);
    FlowKept(s.rx, rx, g, RX, x, AtPosted, r, v);
    QueueGrows(g, items, s.tx.posted, AtPosted, x, r, v);
    AcceptViews(s, g, x, r);
  }

  /** What the heap says about a live request. */
  lemma RecordSays(s: State, g: Book, x: nat, p: Place, r: MpRequest)
    requires Views(s, g) && Faithful(g) && Entry(g, x, p, r)
    ensures ViewOf(r) == g.says[x] && ViewOk(s, x, p, ViewOf(r))
    ensures !p.AtPosted? ==> Unlinked(r)
  {
    assert ViewOk(s, x, g.place[x], g.says[x]) && Matches(g.req[x], g.says[x], g.place[x]);
  }

  /** Different requests have different records. */
  lemma OthersDiffer(s: State, g: Book, x: nat, r: MpRequest)
    requires Views(s, g) && Faithful(g) && x in g.req && g.req[x] == r
    ensures forall id :: id in g.req && id != x ==> g.req[id] != r
  {
    forall id | id in g.req && id != x ensures g.req[id] != r {
      assert ViewOk(s, id, g.place[id], g.says[id]) && Matches(g.req[id], g.says[id], g.place[id]);
      assert ViewOk(s, x, g.place[x], g.says[x]) && Matches(g.req[x], g.says[x], g.place[x]);
    }
  }

  /** Records carry their own id, so a request that is elsewhere is not on the posted list. */
  lemma NotPosted(s: State, g: Book, tx: FlowRegs, rx: FlowRegs, items: seq<MpRequest>, x: nat, p: Place, r: MpRequest)
    requires Account(s, g, tx, rx, items) && Faithful(g) && Entry(g, x, p, r) && p != AtPosted
    ensures r !in items && r.id == x
  {
    RecordSays(s, g, x, p, r);
    forall i | 0 <= i < |items| ensures items[i] != r {
      var y := s.tx.posted[i];
      assert Sits(g, y, AtPosted, items[i]);
      assert ViewOk(s, y, g.place[y], g.says[y]) && Matches(g.req[y], g.says[y], g.place[y]);
    }
  }

  lemma NonePosted(s: State, g: Book, tx: FlowRegs, rx: FlowRegs, items: seq<MpRequest>)
    requires Account(s, g, tx, rx, items) && Faithful(g)
    ensures forall id :: id in g.req && id in g.place && !g.place[id].AtPosted? ==> g.req[id] !in items
  {
    forall id | id in g.req && id in g.place && !g.place[id].AtPosted? ensures g.req[id] !in items {
      NotPosted(s, g, tx, rx, items, id, g.place[id], g.req[id]);
    }
  }

  /** A stream wait on request x is queued: its trigger flag and the high-water mark go up. */
  lemma TrackAccountTx(s: State, g: Book, tx: FlowRegs, rx: FlowRegs, items: seq<MpRequest>,
                       x: nat, p: Place, r: MpRequest)
    requires Account(s, g, tx, rx, items) && Entry(g, x, p, r) && FlowOf(g.says[x].kind) == TX
    requires s.tx.lastPostedTracked < x
    ensures Account(TrackWait(s, TX, x), Put(g, x, p, r, g.says[x].(trigger := true)),
                    tx.(lastPostedTracked := x), rx, items)
  {
    var v := g.says[x].(trigger := true);
    assert ViewOk(s, x, g.place[x], g.says[x]);
    HoldsAgain(g, tx.nic, s.tx.nic, AtNic(TX), x, p, r, v);
    HoldsAgain(g, tx.cq, s.tx.cq, AtCq(TX), x, p, r, v);
    HoldsAgain(g, rx.nic, s.rx.nic, AtNic(RX), x, p, r, v);
    HoldsAgain(g, rx.cq, s.rx.cq, AtCq(RX), x, p, r, v);
    HoldsAgain(g, items, s.tx.posted, AtPosted, x, p, r, v);
    ViewsMoved(s, TrackWait(s, TX, x), g, x, p, r, v);
  }

  lemma TrackAccountRx(s: State, g: Book, tx: FlowRegs, rx: FlowRegs, items: seq<MpRequest>,
                       x: nat, p: Place, r: MpRequest)
    requires Account(s, g, tx, rx, items) && Entry(g, x, p, r) && FlowOf(g.says[x].kind) == RX
    requires s.rx.lastPostedTracked < x
    ensures Account(TrackWait(s, RX, x), Put(g, x, p, r, g.says[x].(trigger := true)),
                    tx, rx.(lastPostedTracked := x), items)
  {
    var v := g.says[x].(trigger := true);
    assert ViewOk(s, x, g.place[x], g.says[x]);
    HoldsAgain(g, tx.nic, s.tx.nic, AtNic(TX), x, p, r, v);
    HoldsAgain(g, tx.cq, s.tx.cq, AtCq(TX), x, p, r, v);
    HoldsAgain(g, rx.nic, s.rx.nic, AtNic(RX), x, p, r, v);
    HoldsAgain(g, rx.cq, s.rx.cq, AtCq(RX), x, p, r, v);
    HoldsAgain(g, items, s.tx.posted, AtPosted, x, p, r, v);
    ViewsMoved(s, TrackWait(s, RX, x), g, x, p, r, v);
  }

  /** Changing only what a record says disturbs no queue. */
  lemma HoldsAgain(g: Book, q: seq<MpRequest>, ids: seq<nat>, o: Place, x: nat, p: Place, r: MpRequest, v: View)
    requires Holds(g, q, ids, o) && At(g, x, p) && g.req[x] == r
    ensures Holds(Put(g, x, p, r, v), q, ids, o)
  {
    var h := Put(g, x, p, r, v);
    forall i | 0 <= i < |q| ensures Sits(h, ids[i], o, q[i]) { assert Sits(g, ids[i], o, q[i]); }
  }

  /** A PENDING_NOWAIT request becomes PENDING when the host starts waiting for it. */
  lemma PendAccount(s: State, g: Book, tx: FlowRegs, rx: FlowRegs, items: seq<MpRequest>,
                    x: nat, p: Place, r: MpRequest)
    requires Account(s, g, tx, rx, items) && Entry(g, x, p, r) && (p.AtNic? || p.AtCq?)
    ensures Account(s, Put(g, x, p, r, g.says[x].(status := Pending)), tx, rx, items)
  {
    var v := g.says[x].(status := Pending);
    assert ViewOk(s, x, g.place[x], g.says[x]);
    HoldsAgain(g, tx.nic, s.tx.nic, AtNic(TX), x, p, r, v);
    HoldsAgain(g, tx.cq, s.tx.cq, AtCq(TX), x, p, r, v);
    HoldsAgain(g, rx.nic, s.rx.nic, AtNic(RX), x, p, r, v);
    HoldsAgain(g, rx.cq, s.rx.cq, AtCq(RX), x, p, r, v);
    HoldsAgain(g, items, s.tx.posted, AtPosted, x, p, r, v);
    ViewsMoved(s, s, g, x, p, r, v);
  }

  lemma PostAgrees(l: Lane, id: nat)
    requires l.posted != [] && id != l.posted[0]
    ensures LaneAgrees(l, LanePost(l), id)
  {
    assert l.posted == [l.posted[0]] + l.posted[1..];
  }

  lemma PostViews(s: State, g: Book, r: MpRequest)
    requires Views(s, g) && s.tx.posted != [] && Entry(g, s.tx.posted[0], AtPosted, r)
    ensures var x := s.tx.posted[0];
            Views(s.(tx := LanePost(s.tx)), Put(g, x, AtNic(TX), r, g.says[x].(status := Pending)))
  {
    var x, t := s.tx.posted[0], s.(tx := LanePost(s.tx));
    assert ViewOk(s, x, g.place[x], g.says[x]);
    forall id | id in g.says && id != x ensures Agrees(s, t, id) { PostAgrees(s.tx, id); }
    ViewsMoved(s, t, g, x, AtNic(TX), r, g.says[x].(status := Pending));
  }

  /** The head of the posted list is handed to the NIC. */
  lemma PostAccount(s: State, g: Book, tx: FlowRegs, rx: FlowRegs, items: seq<MpRequest>)
    requires Account(s, g, tx, rx, items) && s.tx.posted != []
    ensures var x, r := s.tx.posted[0], items[0];
      && Entry(g, x, AtPosted, r)
      && Account(s.(tx := LanePost(s.tx)), Put(g, x, AtNic(TX), r, g.says[x].(status := Pending)),
                 tx.(nic := tx.nic + [r]), rx, items[1..])
  {
    var x, r, b := s.tx.posted[0], items[0], AtNic(TX);
    assert Sits(g, x, AtPosted, r);
    assert ViewOk(s, x, g.place[x], g.says[x]);
    var v := g.says[x].(status := Pending);
    QueueShrinks(g, items, s.tx.posted, AtPosted, b, v);
    QueueGrows(g, tx.nic, s.tx.nic, b, x, r, v);
    QueueKept(g, tx.cq, s.tx.cq, AtCq(TX), x, b, r, v);
    FlowKept(s.rx, rx, g, RX, x, b, r, v);
    PostViews(s, g, r);
  }

  function RegsComplete(c: FlowRegs): (d: FlowRegs)
    requires c.nic != []
  {
    c.(nic := c.nic[1..], cq := c.cq + [c.nic[0]])
  }

  lemma FlowCompletes(l: Lane, c: FlowRegs, g: Book, f: Flow, v: View)
    requires FlowOk(l, c, g, f) && l.nic != []
    ensures FlowOk(LaneComplete(l), RegsComplete(c), Put(g, l.nic[0], AtCq(f), c.nic[0], v), f)
    ensures At(g, l.nic[0], AtNic(f)) && g.req[l.nic[0]] == c.nic[0]
  {
    QueueShrinks(g, c.nic, l.nic, AtNic(f), AtCq(f), v);
    QueueGrows(g, c.cq, l.cq, AtCq(f), l.nic[0], c.nic[0], v);
  }

  lemma CompleteAgrees(l: Lane, id: nat)
    requires l.nic != [] && id != l.nic[0]
    ensures LaneAgrees(l, LaneComplete(l), id)
  {
    assert l.nic == [l.nic[0]] + l.nic[1..];
  }

  lemma CompleteViews(s: State, g: Book, f: Flow, r: MpRequest)
    requires Views(s, g) && LaneOf(s, f).nic != [] && Entry(g, LaneOf(s, f).nic[0], AtNic(f), r)
    ensures var x := LaneOf(s, f).nic[0];
            Views(WithLane(s, f, LaneComplete(LaneOf(s, f))), Put(g, x, AtCq(f), r, g.says[x]))
  {
    var l := LaneOf(s, f);
    var x, t := l.nic[0], WithLane(s, f, LaneComplete(l));
    assert ViewOk(s, x, g.place[x], g.says[x]);
    forall id | id in g.says && id != x ensures Agrees(s, t, id) { CompleteAgrees(l, id); }
    ViewsMoved(s, t, g, x, AtCq(f), r, g.says[x]);
  }

  /** The NIC completes the head of its work queue on flow f. */
  lemma CompleteAccount(s: State, g: Book, tx: FlowRegs, rx: FlowRegs, items: seq<MpRequest>, f: Flow)
    requires Account(s, g, tx, rx, items) && LaneOf(s, f).nic != []
    ensures var l, c := LaneOf(s, f), if f.TX? then tx else rx;
      && Entry(g, l.nic[0], AtNic(f), c.nic[0])
      && Account(WithLane(s, f, LaneComplete(l)), Put(g, l.nic[0], AtCq(f), c.nic[0], g.says[l.nic[0]]),
                 if f.TX? then RegsComplete(tx) else tx, if f.TX? then rx else RegsComplete(rx), items)
  {
    var l, c := LaneOf(s, f), if f.TX? then tx else rx;
    var x, r := l.nic[0], c.nic[0];
    assert Sits(g, x, AtNic(f), r);
    FlowCompletes(l, c, g, f, g.says[x]);
    CompleteViews(s, g, f, r);
    if f.TX? {
      FlowKept(s.rx, rx, g, RX, x, AtCq(f), r, g.says[x]);
    } else {
      FlowKept(s.tx, tx, g, TX, x, AtCq(f), r, g.says[x]);
    }
    QueueKept(g, items, s.tx.posted, AtPosted, x, AtCq(f), r, g.says[x]);
  }

  function RegsPoll(c: FlowRegs, tracked: nat): (d: FlowRegs)
    requires c.cq != []
  {
    c.(cq := c.cq[1..], lastTracked := tracked)
  }

  lemma FlowPolls(l: Lane, c: FlowRegs, g: Book, f: Flow, v: View)
    requires FlowOk(l, c, g, f) && l.cq != []
    ensures FlowOk(LanePoll(l), RegsPoll(c, LanePoll(l).lastTracked), Put(g, l.cq[0], AtDone(f), c.cq[0], v), f)
    ensures At(g, l.cq[0], AtCq(f)) && g.req[l.cq[0]] == c.cq[0]
  {
    QueueShrinks(g, c.cq, l.cq, AtCq(f), AtDone(f), v);
    QueueKept(g, c.nic, l.nic, AtNic(f), l.cq[0], AtDone(f), c.cq[0], v);
  }

  lemma PollAgrees(l: Lane, id: nat)
    requires l.cq != [] && id != l.cq[0]
    ensures LaneAgrees(l, LanePoll(l), id)
  {
    assert l.cq == [l.cq[0]] + l.cq[1..];
  }

  lemma PollViews(s: State, g: Book, f: Flow, r: MpRequest)
    requires Views(s, g) && LaneOf(s, f).cq != [] && Entry(g, LaneOf(s, f).cq[0], AtCq(f), r)
    ensures var x := LaneOf(s, f).cq[0];
            Views(PollStep(s, f), Put(g, x, AtDone(f), r, g.says[x].(status := Status.Complete)))
  {
    var l := LaneOf(s, f);
    var x, t := l.cq[0], PollStep(s, f);
    assert ViewOk(s, x, g.place[x], g.says[x]);
    forall id | id in g.says && id != x ensures Agrees(s, t, id) { PollAgrees(l, id); }
    ViewsMoved(s, t, g, x, AtDone(f), r, g.says[x].(status := Status.Complete));
  }

  /** The head of a completion queue is polled. */
  lemma PollAccount(s: State, g: Book, tx: FlowRegs, rx: FlowRegs, items: seq<MpRequest>, f: Flow)
    requires Account(s, g, tx, rx, items) && LaneOf(s, f).cq != []
    ensures var l, c := LaneOf(s, f), if f.TX? then tx else rx;
      var x, d := l.cq[0], RegsPoll(c, LanePoll(l).lastTracked);
      && Entry(g, x, AtCq(f), c.cq[0])
      && Account(PollStep(s, f), Put(g, x, AtDone(f), c.cq[0], g.says[x].(status := Status.Complete)),
                 if f.TX? then d else tx, if f.TX? then rx else d, items)
  {
    var l, c := LaneOf(s, f), if f.TX? then tx else rx;
    var x, r := l.cq[0], c.cq[0];
    assert Sits(g, x, AtCq(f), r);
    assert ViewOk(s, x, g.place[x], g.says[x]);
    var v := g.says[x].(status := Status.Complete);
    FlowPolls(l, c, g, f, v);
    PollViews(s, g, f, r);
    if f.TX? {
      FlowKept(s.rx, rx, g, RX, x, AtDone(f), r, v);
    } else {
      FlowKept(s.tx, tx, g, TX, x, AtDone(f), r, v);
    }
    QueueKept(g, items, s.tx.posted, AtPosted, x, AtDone(f), r, v);
  }

  ghost function Drop(g: Book, x: nat): (h: Book) {
    Book(g.place - {x}, g.req - {x}, g.says - {x})
  }

  lemma HoldsWithout(g: Book, q: seq<MpRequest>, ids: seq<nat>, p: Place, x: nat)
    requires Holds(g, q, ids, p) && !At(g, x, p)
    ensures Holds(Drop(g, x), q, ids, p)
  {
    var h := Drop(g, x);
    forall i | 0 <= i < |q| ensures Sits(h, ids[i], p, q[i]) { assert Sits(g, ids[i], p, q[i]); }
  }

  /** A completed request leaves the account; the queues never held it. */
  lemma ReleaseAccount(s: State, g: Book, tx: FlowRegs, rx: FlowRegs, items: seq<MpRequest>, x: nat, f: Flow)
    requires Account(s, g, tx, rx, items) && x in g.place && g.place[x] == AtDone(f)
    ensures Account(s, Drop(g, x), tx, rx, items)
  {
    HoldsWithout(g, tx.nic, s.tx.nic, AtNic(TX), x);
    HoldsWithout(g, tx.cq, s.tx.cq, AtCq(TX), x);
    HoldsWithout(g, rx.nic, s.rx.nic, AtNic(RX), x);
    HoldsWithout(g, rx.cq, s.rx.cq, AtCq(RX), x);
    HoldsWithout(g, items, s.tx.posted, AtPosted, x);
    var h := Drop(g, x);
    forall id | id in h.says ensures ViewOk(s, id, h.place[id], h.says[id]) {
      assert ViewOk(s, id, g.place[id], g.says[id]);
    }
  }

  /** Where a request is decides which calls accept it and whether it is complete. */
  lemma PlaceSays(s: State, g: Book, x: nat, p: Place, r: MpRequest)
    requires Views(s, g) && Faithful(g) && Entry(g, x, p, r)
    ensures r.id == x && r.kind == g.says[x].kind
    ensures p == AtPrepared || p == AtPosted ==> r.kind == SendReq && Enabled(s, IsendPost(x)) && Enabled(s, SendPost(x))
    ensures Enabled(s, WaitOnStream(FlowOf(r.kind), x))
    ensures r.status == Status.Complete <==> x in LaneOf(s, FlowOf(r.kind)).polled
    ensures p == AtPosted ==> x in s.tx.posted
  {
    RecordSays(s, g, x, p, r);
    var l := LaneOf(s, FlowOf(r.kind));
    assert Line(l) == l.polled + l.cq + l.nic + l.posted;
  }

  /** A request whose id was polled on either flow is complete. */
  lemma PolledSays(s: State, g: Book, x: nat, p: Place, r: MpRequest)
    requires Views(s, g) && Faithful(g) && Entry(g, x, p, r) && (x in s.tx.polled || x in s.rx.polled)
    ensures r.status == Status.Complete
  {
    RecordSays(s, g, x, p, r);
  }

  /** The stream running a command moves no request. */
  lemma StreamAccount(s: State, g: Book, tx: FlowRegs, rx: FlowRegs, items: seq<MpRequest>)
    requires Account(s, g, tx, rx, items) && Enabled(s, StreamStep)
    ensures Account(StreamExec(s), g, tx, rx, items)
  {
    var t := StreamExec(s);
    forall id | id in g.says ensures ViewOk(t, id, g.place[id], g.says[id]) {
      ViewKept(s, t, id, g.place[id], g.says[id]);
    }
  }

  /** Dropping a request from the account leaves the account of the others true. */
  lemma FaithfulDrop(g: Book, x: nat)
    requires FaithfulBut(g, x)
    ensures Faithful(Drop(g, x))
  {
    var h := Drop(g, x);
    forall id | id in h.req ensures Matches(h.req[id], h.says[id], h.place[id]) {
      assert Matches(g.req[id], g.says[id], g.place[id]);
    }
  }

  /** Everything on the posted list is one of the live records. */
  lemma ItemsLive(s: State, g: Book, tx: FlowRegs, rx: FlowRegs, items: seq<MpRequest>, live: set<MpRequest>)
    requires Account(s, g, tx, rx, items)
    requires forall id :: id in g.req ==> g.req[id] in live
    ensures forall i :: 0 <= i < |items| ==> items[i] in live
  {
    forall i | 0 <= i < |items| ensures items[i] in live {
      assert Sits(g, s.tx.posted[i], AtPosted, items[i]);
    }
  }
}
