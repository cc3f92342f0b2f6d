/**
  One client of the library in event-sync mode: the request records, the posted list and the
  counters as the C code keeps them, with the GPU stream, the NIC and the completion queues as
  FIFOs. Every call is proved to be the corresponding step of the event-sync machine.
 */
module Client {
  import opened Requests
  import opened EventSync
  import opened EventSyncInvariant
  import opened Ledger
  import PostedList
  import RequestPool

  const MP_SUCCESS := 0
  const MP_FAILURE := 1
  const EINVAL := 22

  /** What new_stream_request writes into a record. */
  method Fill(r: MpRequest, kind: ReqType, status: Status, id: nat)
    modifies r
    ensures ViewOf(r) == View(id, kind, status, false, false) && Unlinked(r)
  {
    r.nowait := false;
    r.next, r.prev := null, null;
    r.trigger := false;
    r.kind := kind;
    r.status := status;
    r.id := id;
  }

  /** A record taken from the pool and filled in (new_stream_request). */
  method Draw(pool: RequestPool.Pool, kind: ReqType, status: Status, id: nat) returns (r: MpRequest)
    requires pool.Valid()
    modifies pool, pool.free
    ensures pool.Valid()
    ensures r !in old(pool.live) && pool.live == old(pool.live) + {r}
    ensures ViewOf(r) == View(id, kind, status, false, false)
    ensures Unlinked(r) && (r in old(pool.free) || fresh(r))
    ensures old(pool.records) <= pool.records && fresh(pool.records - old(pool.records))
    ensures forall x :: x in old(pool.live) ==> unchanged(x)
  {
    pool.Look();
    r := pool.GetRequest();
    assert r !in pool.free by { pool.Look(); }
    Fill(r, kind, status, id);
  }

  class Client {
    var lastReqId: nat
    var lastDoneId: nat
    var lastPostedTrigger: nat
    var lastTrigger: nat
    var tx: FlowRegs
    var rx: FlowRegs
    const posted: PostedList.List
    var stream: seq<Cmd>
    var executed: nat

    ghost var abs: State
    ghost var book: Book

    function Regs(f: Flow): (r: FlowRegs)
      reads this
    {
      if f.TX? then tx else rx
    }

    /** The counters, and how far the stream has run, are those of s. */
    ghost predicate CountersOf(s: State)
      reads this
    {
      && s.lastReqId == lastReqId
      && s.lastPostedTrigger == lastPostedTrigger
      && s.lastTrigger == lastTrigger
      && s.issued == stream
      && s.executed == executed <= |stream|
    }

    /** Queues and records are in order; the counters may be about to change. */
    ghost predicate Sound()
      reads this, book.req.Values, posted, posted.items
    {
      && Account(abs, book, tx, rx, posted.items)
      && Faithful(book)
      && posted.Valid()
    }

    ghost predicate Valid()
      reads this, book.req.Values, posted, posted.items
    {
      CountersOf(abs) && Sound()
    }

    /** The registers of both flows and the account, in one go; records and links are not touched. */
    method SetRegs(newTx: FlowRegs, newRx: FlowRegs, ghost t: State, ghost h: Book)
      requires Faithful(h) && posted.Valid()
      modifies this`tx, this`rx, this`abs, this`book
      ensures abs == t && book == h && tx == newTx && rx == newRx
      ensures Faithful(h) && posted.Valid() && posted.items == old(posted.items)
    {
      tx, rx := newTx, newRx;
      abs, book := t, h;
    }

    /** Queues and records now amount to t, with h as the account; the counters are another matter. */
    method Adopt(newTx: FlowRegs, newRx: FlowRegs, ghost t: State, ghost h: Book)
      requires Account(t, h, newTx, newRx, posted.items) && Faithful(h) && posted.Valid()
      modifies this`tx, this`rx, this`abs, this`book
      ensures Sound() && abs == t && book == h && tx == newTx && rx == newRx
      ensures posted.items == old(posted.items)
    {
      SetRegs(newTx, newRx, t, h);
    }

    /** The client has become state t of the machine, with h as its account. */
    method Update(newTx: FlowRegs, newRx: FlowRegs, ghost t: State, ghost h: Book)
      requires CountersOf(t) && Account(t, h, newTx, newRx, posted.items) && Faithful(h) && posted.Valid()
      modifies this`tx, this`rx, this`abs, this`book
      ensures Valid() && abs == t && book == h && tx == newTx && rx == newRx
      ensures posted.items == old(posted.items)
    {
      SetRegs(newTx, newRx, t, h);
    }

    method Settle(ghost t: State, ghost h: Book)
      requires CountersOf(t) && Account(t, h, tx, rx, posted.items) && Faithful(h) && posted.Valid()
      modifies this`tx, this`rx, this`abs, this`book
      ensures Valid() && abs == t && book == h && tx == old(tx) && rx == old(rx)
      ensures posted.items == old(posted.items)
    {
      Update(tx, rx, t, h);
    }

    /** The client's live requests are records the pool has handed out. */
    ghost predicate Owns(pool: RequestPool.Pool)
      reads this, pool
    {
      forall id :: id in book.req ==> book.req[id] in pool.live
    }

    /** Records handed out that are not those of the client's live requests. */
    ghost function Others(pool: RequestPool.Pool): (others: set<MpRequest>)
      reads this`book, pool`live
    {
      pool.live - book.req.Values
    }

    constructor ()
      ensures Valid() && abs == INIT && book == Book(map[], map[], map[]) && fresh(posted)
    {
      lastReqId, lastDoneId, lastPostedTrigger, lastTrigger := 0, 0, 0, 0;
      tx, rx := FlowRegs(0, 0, [], []), FlowRegs(0, 0, [], []);
      stream, executed := [], 0;
      posted := new PostedList.List();
      abs, book := INIT, Book(map[], map[], map[]);
    }

    /** The record part of new_stream_request: nothing the client relies on is disturbed. */
    method DrawNext(pool: RequestPool.Pool, kind: ReqType, status: Status) returns (r: MpRequest)
      requires Valid() && pool.Valid() && Owns(pool)
      modifies this`lastReqId, pool, pool.free
      ensures pool.Valid() && r !in old(pool.live) && pool.live == old(pool.live) + {r}
      ensures old(pool.records) <= pool.records && fresh(pool.records - old(pool.records))
      ensures lastReqId == old(lastReqId) + 1
      ensures ViewOf(r) == View(lastReqId, kind, status, false, false)
      ensures Unlinked(r) && (r in old(pool.free) || fresh(r))
      ensures Faithful(book) && posted.Valid() && posted.items == old(posted.items)
    {
      pool.Look();
      ItemsLive(abs, book, tx, rx, posted.items, pool.live);
      r := Draw(pool, kind, status, lastReqId + 1);
      lastReqId := lastReqId + 1;
    }

    /** r was drawn for this client, with an id of its own, and is in none of its queues. */
    ghost predicate InHand(r: MpRequest)
      reads this, r
    {
      Spare(abs, book, r.id) && r !in book.req.Values && Unlinked(r)
    }

    /** No record the client uses is on the free list. */
    lemma PoolApart(pool: RequestPool.Pool, r: MpRequest)
      requires Account(abs, book, tx, rx, posted.items) && pool.Valid() && Owns(pool)
      requires r.id in book.req && book.req[r.id] == r
      ensures r !in pool.free && forall x :: x in posted.items ==> x !in pool.free
    {
      pool.Look();
      ItemsLive(abs, book, tx, rx, posted.items, pool.live);
    }

    /** The record is drawn, and the account is true of the state with the next id drawn. */
    method DrawApart(pool: RequestPool.Pool, kind: ReqType, status: Status) returns (r: MpRequest)
      requires Valid() && pool.Valid() && Owns(pool) && lastReqId < UINT_MAX
      modifies this`lastReqId, pool, pool.free
      ensures CountersOf(Fresh(abs)) && Account(Fresh(abs), book, tx, rx, posted.items)
      ensures Faithful(book) && posted.Valid() && posted.items == old(posted.items)
      ensures pool.Valid() && Spare(Fresh(abs), book, r.id) && Unlinked(r) && r.id == lastReqId
      ensures r !in old(pool.live) && pool.live == old(pool.live) + {r} && (r in old(pool.free) || fresh(r))
      ensures old(pool.records) <= pool.records && fresh(pool.records - old(pool.records))
      ensures ViewOf(r) == View(lastReqId, kind, status, false, false)
    {
      DrawAccount(abs, book, tx, rx, posted.items);
      DrawSpare(abs, book, tx, rx, posted.items);
      r := DrawNext(pool, kind, status);
    }

    /** A record from the pool with the next id of the client's counter. */
    method NewStreamRequest(pool: RequestPool.Pool, kind: ReqType, status: Status) returns (r: MpRequest)
      requires Valid() && pool.Valid() && Owns(pool) && lastReqId < UINT_MAX
      modifies this`lastReqId, this`tx, this`rx, this`abs, this`book, pool, pool.free
      ensures Valid() && pool.Valid() && Owns(pool) && InHand(r)
      ensures abs == Fresh(old(abs)) && book == old(book) && posted.items == old(posted.items)
      ensures r !in old(pool.live) && pool.live == old(pool.live) + {r} && (r in old(pool.free) || fresh(r))
      ensures old(pool.records) <= pool.records && fresh(pool.records - old(pool.records))
      ensures ViewOf(r) == View(lastReqId, kind, status, false, false)
    {
      assert forall x :: x in book.req.Values ==> x in pool.live;
      r := DrawApart(pool, kind, status);
      Settle(Fresh(abs), book);
    }

    // ---- calls that draw a request -------------------------------------------------------------

    /** A drawn record is kept for a later post call. */
    method KeepPrepared(r: MpRequest)
      requires Valid() && InHand(r) && ViewOf(r) == View(r.id, SendReq, Status.Prepared, false, false)
      modifies this`tx, this`rx, this`abs, this`book
      ensures Valid() && abs == PrepareState(old(abs), r.id) && posted.items == old(posted.items)
      ensures book == Put(old(book), r.id, AtPrepared, r, ViewOf(r))
    {
      PrepareAccount(abs, book, tx, rx, posted.items, r.id, r);
      FaithfulPut(book, r.id, AtPrepared, r);
      Settle(PrepareState(abs, r.id), Put(book, r.id, AtPrepared, r, ViewOf(r)));
    }

    /** A drawn receive is on the NIC. */
    method PostRecv(r: MpRequest)
      requires Valid() && InHand(r) && ViewOf(r) == View(r.id, RecvReq, PendingNowait, false, false)
      modifies this`tx, this`rx, this`abs, this`book
      ensures Valid() && abs == NicState(old(abs), RX, r.id) && rx.nic == old(rx.nic) + [r]
      ensures book == Put(old(book), r.id, AtNic(RX), r, ViewOf(r))
    {
      NicAccountRx(abs, book, tx, rx, posted.items, r.id, r);
      FaithfulPut(book, r.id, AtNic(RX), r);
      Update(tx, rx.(nic := rx.nic + [r]), NicState(abs, RX, r.id), Put(book, r.id, AtNic(RX), r, ViewOf(r)));
    }

    /** A drawn immediate send is on the NIC. */
    method PostSend(r: MpRequest)
      requires Valid() && InHand(r) && ViewOf(r) == View(r.id, SendReq, PendingNowait, false, false)
      modifies this`tx, this`rx, this`abs, this`book
      ensures Valid() && abs == NicState(old(abs), TX, r.id) && tx.nic == old(tx.nic) + [r]
      ensures book == Put(old(book), r.id, AtNic(TX), r, ViewOf(r))
    {
      NicAccountTx(abs, book, tx, rx, posted.items, r.id, r);
      FaithfulPut(book, r.id, AtNic(TX), r);
      Update(tx.(nic := tx.nic + [r]), rx, NicState(abs, TX, r.id), Put(book, r.id, AtNic(TX), r, ViewOf(r)));
    }

    /** A drawn unsignalled put is with the NIC, which will report nothing about it. */
    method PostPut(r: MpRequest)
      requires Valid() && InHand(r) && ViewOf(r) == View(r.id, RdmaReq, PendingNowait, true, false)
      modifies this`tx, this`rx, this`abs, this`book
      ensures Valid() && abs == old(abs)
      ensures book == Put(old(book), r.id, Idle, r, ViewOf(r))
    {
      NowaitAccount(abs, book, tx, rx, posted.items, r.id, r);
      FaithfulPut(book, r.id, Idle, r);
      Settle(abs, Put(book, r.id, Idle, r, ViewOf(r)));
    }

    /** mp_send_prepare: the request exists, but nothing is queued for it yet. */
    method SendPrepareCall(pool: RequestPool.Pool) returns (r: MpRequest)
      requires Valid() && pool.Valid() && Owns(pool) && lastReqId < UINT_MAX
      modifies this`lastReqId, this`tx, this`rx, this`abs, this`book, pool, pool.free
      ensures Valid() && pool.Valid() && Owns(pool)
      ensures r !in old(pool.live) && pool.live == old(pool.live) + {r} && (r in old(pool.free) || fresh(r))
      ensures old(pool.records) <= pool.records && fresh(pool.records - old(pool.records))
      ensures abs == Apply(old(abs), SendPrepare) && r.id == lastReqId && posted.items == old(posted.items)
      ensures book == Put(old(book), r.id, AtPrepared, r, ViewOf(r)) && Entry(book, r.id, AtPrepared, r)
    {
      FreshSteps(abs);
      r := NewStreamRequest(pool, SendReq, Status.Prepared);
      KeepPrepared(r);
    }

    // ---- deferred sends and stream waits ---------------------------------------------------------

    /** The record of a prepared send is linked into the posted list; no other record notices. */
    method LinkPosted(r: MpRequest, ghost g: Book)
      requires Faithful(g) && posted.Valid() && Entry(g, r.id, AtPrepared, r)
      requires Unlinked(r) && r !in posted.items && ViewOf(r) == g.says[r.id]
      requires forall id :: id in g.req && id in g.place && !g.place[id].AtPosted? ==> g.req[id] !in posted.items
      requires forall id :: id in g.req && id != r.id ==> g.req[id] != r
      modifies posted, (set x | x in posted.items)`next, r`prev
      ensures posted.Valid() && posted.items == old(posted.items) + [r]
      ensures Faithful(Put(g, r.id, AtPosted, r, g.says[r.id]))
    {
      posted.Track(r);
      forall id | id in g.req && id != r.id ensures Matches(g.req[id], g.says[id], g.place[id]) {
        assert old(Matches(g.req[id], g.says[id], g.place[id]));
      }
      FaithfulPut(g, r.id, AtPosted, r);
    }

    /** The request joins the posted list; its trigger write is still to be queued. */
    method TrackPosted(r: MpRequest)
      requires Sound() && Entry(book, r.id, AtPrepared, r)
      modifies this`lastPostedTrigger, this`tx, this`rx, this`abs, this`book
      modifies posted, (set x | x in posted.items)`next, r`prev
      ensures Sound() && abs == Accept(old(abs), r.id) && lastPostedTrigger == r.id
      ensures book == Put(old(book), r.id, AtPosted, r, old(book).says[r.id])
      ensures posted.items == old(posted.items) + [r]
    {
      ghost var id := r.id;
      RecordSays(abs, book, id, AtPrepared, r);
      OthersDiffer(abs, book, id, r);
      NotPosted(abs, book, tx, rx, posted.items, id, AtPrepared, r);
      NonePosted(abs, book, tx, rx, posted.items);
      AcceptAccount(abs, book, tx, rx, posted.items, id, r);
      LinkPosted(r, book);
      SetTrigger(r.id, Put(book, id, AtPosted, r, book.says[id]));
      Adopt(tx, rx, Accept(abs, id), Put(book, id, AtPosted, r, book.says[id]));
    }

    method SetTrigger(id: nat, ghost g: Book)
      requires Faithful(g) && posted.Valid()
      modifies this`lastPostedTrigger
      ensures lastPostedTrigger == id
      ensures Faithful(g) && posted.Valid() && posted.items == old(posted.items)
    {
      lastPostedTrigger := id;
    }

    /** Commands are appended to the stream; queues and records are not concerned. */
    method PostDescriptors(descs: seq<Cmd>)
      requires Sound()
      modifies this`stream
      ensures Sound() && stream == old(stream) + descs
    {
      stream := stream + descs;
    }

    /** Deferred posting: the stream is to write the id, and the request joins the posted list. */
    method AcceptPosted(r: MpRequest)
      requires Batching(this, []) && Entry(book, r.id, AtPrepared, r)
      modifies this`lastPostedTrigger, this`stream, this`tx, this`rx, this`abs, this`book
      modifies posted, (set x | x in posted.items)`next, r`prev
      ensures Batching(this, []) && abs == Accept(old(abs), r.id)
      ensures Entry(book, r.id, AtPosted, r) && book.req == old(book).req
    {
      LookBatching(this, []);
      PutSame(book, r.id, AtPosted, r, book.says[r.id]);
      TrackPosted(r);
      PostDescriptors([Trigger(r.id)]);
      BatchNone(this);
    }

    /** Request r is flagged to report its completion. */
    method FlagTrigger(r: MpRequest, ghost p: Place, ghost g: Book)
      requires Faithful(g) && posted.Valid() && Entry(g, r.id, p, r) && ViewOf(r) == g.says[r.id]
      requires p.AtPosted? || Unlinked(r)
      requires forall id :: id in g.req && id != r.id ==> g.req[id] != r
      modifies r`trigger
      ensures posted.Valid() && Faithful(Put(g, r.id, p, r, g.says[r.id].(trigger := true)))
    {
      r.trigger := true;
      forall id | id in g.req && id != r.id ensures Matches(g.req[id], g.says[id], g.place[id]) {
        assert old(Matches(g.req[id], g.says[id], g.place[id]));
      }
      FaithfulPut(g, r.id, p, r);
    }

    /** The high-water mark of the TX flow rises to request r, which is flagged. */
    method RaiseTrackedTx(r: MpRequest, ghost p: Place)
      requires Sound() && Entry(book, r.id, p, r) && FlowOf(r.kind) == TX && tx.lastPostedTracked < r.id
      modifies this`tx, this`rx, this`abs, this`book, r`trigger
      ensures Sound() && abs == TrackWait(old(abs), TX, r.id) && posted.items == old(posted.items)
      ensures book == Put(old(book), r.id, p, r, old(book).says[r.id].(trigger := true))
    {
      ghost var s, g, id := abs, book, r.id;
      RecordSays(s, g, id, p, r);
      OthersDiffer(s, g, id, r);
      TrackAccountTx(s, g, tx, rx, posted.items, id, p, r);
      FlagTrigger(r, p, g);
      Adopt(tx.(lastPostedTracked := r.id), rx, TrackWait(s, TX, id), Put(g, id, p, r, g.says[id].(trigger := true)));
    }

    /** The high-water mark of the RX flow rises to request r, which is flagged. */
    method RaiseTrackedRx(r: MpRequest, ghost p: Place)
      requires Sound() && Entry(book, r.id, p, r) && FlowOf(r.kind) == RX && rx.lastPostedTracked < r.id
      modifies this`tx, this`rx, this`abs, this`book, r`trigger
      ensures Sound() && abs == TrackWait(old(abs), RX, r.id) && posted.items == old(posted.items)
      ensures book == Put(old(book), r.id, p, r, old(book).says[r.id].(trigger := true))
    {
      ghost var s, g, id := abs, book, r.id;
      RecordSays(s, g, id, p, r);
      OthersDiffer(s, g, id, r);
      TrackAccountRx(s, g, tx, rx, posted.items, id, p, r);
      FlagTrigger(r, p, g);
      Adopt(tx, rx.(lastPostedTracked := r.id), TrackWait(s, RX, id), Put(g, id, p, r, g.says[id].(trigger := true)));
    }

    /** What a wait for request r adds to the stream, the high-water mark and the flag already raised. */
    method TrackWaited(r: MpRequest, ghost p: Place) returns (descs: seq<Cmd>)
      requires Sound() && Entry(book, r.id, p, r)
      modifies this`tx, this`rx, this`abs, this`book, r`trigger
      ensures Sound() && abs == TrackWait(old(abs), FlowOf(old(r.kind)), r.id)
      ensures abs.issued == old(abs).issued + descs
      ensures Entry(book, r.id, p, r) && posted.items == old(posted.items)
      ensures book.req == old(book).req && book.place == old(book).place
      ensures book == old(book) || book == Put(old(book), r.id, p, r, old(book).says[r.id].(trigger := true))
    {
      descs := [];
      if IsTx(r.kind) {
        if tx.lastPostedTracked < r.id {
          descs := [WaitTracked(TX, r.id)];
          RaiseTrackedTx(r, p);
        }
      } else if rx.lastPostedTracked < r.id {
        descs := [WaitTracked(RX, r.id)];
        RaiseTrackedRx(r, p);
      }
    }

    /** Wait on the stream for request r, unless a wait for a later id is queued already. */
    method TrackWaitOn(r: MpRequest, ghost p: Place)
      requires Batching(this, []) && Entry(book, r.id, p, r)
      modifies this`stream, this`tx, this`rx, this`abs, this`book, r`trigger
      ensures Batching(this, []) && abs == TrackWait(old(abs), FlowOf(old(r.kind)), r.id)
      ensures Entry(book, r.id, p, r) && posted.items == old(posted.items)
      ensures book.req == old(book).req
    {
      LookBatching(this, []);
      var descs := TrackWaited(r, p);
      PostDescriptors(descs);
      BatchNone(this);
    }

    /** The same, and the stream is to wait for the completion. */
    method AcceptAndWait(r: MpRequest)
      requires Batching(this, []) && Entry(book, r.id, AtPrepared, r)
      modifies this`lastPostedTrigger, this`stream, this`tx, this`rx, this`abs, this`book
      modifies posted, (set x | x in posted.items)`next, r`prev, r`trigger
      ensures Batching(this, []) && abs == TrackWait(Accept(old(abs), r.id), TX, r.id)
      ensures Entry(book, r.id, AtPosted, r) && book.req == old(book).req
    {
      PreparedTx(this, r);
      AcceptPosted(r);
      TrackWaitOn(r, AtPosted);
    }

    /** A send just prepared is accepted for deferred posting. */
    method AcceptDrawn(r: MpRequest, ghost s: State)
      requires Batching(this, []) && Entry(book, r.id, AtPrepared, r)
      requires s.lastReqId < UINT_MAX && abs == Apply(s, SendPrepare) && r.id == s.lastReqId + 1 && r.id !in s.prepared
      modifies this`lastPostedTrigger, this`stream, this`tx, this`rx, this`abs, this`book
      modifies posted, (set x | x in posted.items)`next, r`prev
      ensures Batching(this, []) && abs == Apply(s, IsendOnStream)
      ensures Entry(book, r.id, AtPosted, r) && book.req == old(book).req
    {
      FreshSteps(s);
      DirectSteps(s, Fresh(s), r.id);
      AcceptPosted(r);
    }

    /** The same, and the stream waits for it. */
    method AcceptDrawnAndWait(r: MpRequest, ghost s: State)
      requires Batching(this, []) && Entry(book, r.id, AtPrepared, r)
      requires s.lastReqId < UINT_MAX && abs == Apply(s, SendPrepare) && r.id == s.lastReqId + 1 && r.id !in s.prepared
      modifies this`lastPostedTrigger, this`stream, this`tx, this`rx, this`abs, this`book
      modifies posted, (set x | x in posted.items)`next, r`prev, r`trigger
      ensures Batching(this, []) && abs == Apply(s, SendOnStream)
      ensures Entry(book, r.id, AtPosted, r) && book.req == old(book).req
    {
      FreshSteps(s);
      DirectSteps(s, Fresh(s), r.id);
      AcceptAndWait(r);
    }

    /** A send to be deferred, with the next id. */
    method NewDeferred(pool: RequestPool.Pool) returns (r: MpRequest)
      requires Batching(this, []) && pool.Valid() && Owns(pool) && lastReqId < UINT_MAX
      modifies this`lastReqId, this`tx, this`rx, this`abs, this`book, pool, pool.free
      ensures Batching(this, []) && pool.Valid() && Owns(pool)
      ensures old(abs).lastReqId < UINT_MAX && abs == Apply(old(abs), SendPrepare) && r.id !in old(abs).prepared
      ensures posted.items == old(posted.items)
      ensures r !in old(pool.live) && pool.live == old(pool.live) + {r} && (r in old(pool.free) || fresh(r))
      ensures old(pool.records) <= pool.records && fresh(pool.records - old(pool.records))
      ensures r.id == lastReqId == old(abs).lastReqId + 1
      ensures Entry(book, r.id, AtPrepared, r) && book.req == old(book).req[r.id := r]
      ensures r !in pool.free && forall x :: x in posted.items ==> x !in pool.free
    {
      LookBatching(this, []);
      assert Drawn(abs);
      r := SendPrepareCall(pool);
      PoolApart(pool, r);
      BatchNone(this);
    }

    /** mp_isend_on_stream: drawn and accepted in one call. */
    method IsendOnStreamCall(pool: RequestPool.Pool) returns (r: MpRequest)
      requires Batching(this, []) && pool.Valid() && Owns(pool) && lastReqId < UINT_MAX
      modifies this`lastReqId, this`lastPostedTrigger, this`stream, this`tx, this`rx, this`abs, this`book
      modifies pool, pool.free, posted, (set x | x in posted.items)`next
      ensures Batching(this, []) && pool.Valid() && Owns(pool)
      ensures r !in old(pool.live) && pool.live == old(pool.live) + {r}
      ensures old(pool.records) <= pool.records && fresh(pool.records - old(pool.records))
      ensures old(abs).lastReqId < UINT_MAX && abs == Apply(old(abs), IsendOnStream) && r.id == lastReqId == old(abs).lastReqId + 1
      ensures Entry(book, r.id, AtPosted, r) && book.req == old(book).req[r.id := r]
    {
      ghost var s := abs;
      r := NewDeferred(pool);
      AcceptDrawn(r, s);
    }

    /** mp_send_on_stream: the same, and the stream waits for the completion. */
    method SendOnStreamCall(pool: RequestPool.Pool) returns (r: MpRequest)
      requires Batching(this, []) && pool.Valid() && Owns(pool) && lastReqId < UINT_MAX
      modifies this`lastReqId, this`lastPostedTrigger, this`stream, this`tx, this`rx, this`abs, this`book
      modifies pool, pool.free, posted, (set x | x in posted.items)`next
      ensures Batching(this, []) && pool.Valid() && Owns(pool)
      ensures r !in old(pool.live) && pool.live == old(pool.live) + {r}
      ensures old(pool.records) <= pool.records && fresh(pool.records - old(pool.records))
      ensures old(abs).lastReqId < UINT_MAX && abs == Apply(old(abs), SendOnStream) && r.id == lastReqId == old(abs).lastReqId + 1
      ensures Entry(book, r.id, AtPosted, r) && book.req == old(book).req[r.id := r]
    {
      ghost var s := abs;
      r := NewDeferred(pool);
      AcceptDrawnAndWait(r, s);
    }

    /** mp_isend_post_on_stream: refused when a later id was posted before. */
    method IsendPostOnStream(r: MpRequest, ghost p: Place) returns (ret: int)
      requires Ready(this) && Entry(book, r.id, p, r)
      requires p == AtPrepared || p == AtPosted
      modifies this`lastPostedTrigger, this`stream, this`tx, this`rx, this`abs, this`book
      modifies posted, (set x | x in posted.items)`next, r`prev
      ensures Batching(this, []) && Enabled(old(abs), IsendPost(r.id)) && abs == Apply(old(abs), IsendPost(r.id))
      ensures ret == MP_SUCCESS <==> r.id > old(abs).lastPostedTrigger
      ensures Entry(book, r.id, if ret == MP_SUCCESS then AtPosted else p, r) && book.req == old(book).req
    {
      MayPost(this, r, p);
      ret := MP_SUCCESS;
      if r.id <= lastPostedTrigger {
        ret := MP_FAILURE;
      } else {
        AcceptPosted(r);
      }
    }

    /** mp_send_post_on_stream: the same, and the stream waits for the completion. */
    method SendPostOnStream(r: MpRequest, ghost p: Place) returns (ret: int)
      requires Ready(this) && Entry(book, r.id, p, r)
      requires p == AtPrepared || p == AtPosted
      modifies this`lastPostedTrigger, this`stream, this`tx, this`rx, this`abs, this`book
      modifies posted, (set x | x in posted.items)`next, r`prev, r`trigger
      ensures Batching(this, []) && Enabled(old(abs), SendPost(r.id)) && abs == Apply(old(abs), SendPost(r.id))
      ensures ret == MP_SUCCESS <==> r.id > old(abs).lastPostedTrigger
      ensures Entry(book, r.id, if ret == MP_SUCCESS then AtPosted else p, r) && book.req == old(book).req
    {
      MayPost(this, r, p);
      ret := MP_SUCCESS;
      if r.id <= lastPostedTrigger {
        ret := MP_FAILURE;
      } else {
        AcceptAndWait(r);
      }
    }

    /** mp_wait_on_stream: nothing to do for a complete request; no other is refused, unsignalled puts included. */
    method WaitOnStreamCall(r: MpRequest, ghost p: Place)
      requires Batching(this, []) && Entry(book, r.id, p, r)
      modifies this`stream, this`tx, this`rx, this`abs, this`book, r`trigger
      ensures Batching(this, []) && var e := WaitOnStream(FlowOf(old(r.kind)), r.id);
                Enabled(old(abs), e) && abs == Apply(old(abs), e)
      ensures Entry(book, r.id, p, r) && book.req == old(book).req
    {
      MayWait(this, r, p);
      if r.status != Status.Complete {
        TrackWaitOn(r, p);
      }
    }
  }

  // ---- the client between calls ------------------------------------------------------------------------

  /**
    What holds of a client is looked into only where a fact is marked; a call that hands the client
    from one callee to the next does not need it.
   */
  predicate Marked(k: int) { 0 <= k }

  /** The client is in order and its machine state satisfies the invariant of runs. */
  ghost predicate Ready(c: Client)
    reads c, c.book.req.Values, c.posted, c.posted.items
  {
    forall k {:trigger Marked(k)} :: Marked(k) ==> c.Valid() && Inv(c.abs)
  }

  lemma Look(c: Client)
    requires Ready(c)
    ensures c.Valid() && Inv(c.abs)
  {
    assert Marked(0);
  }

  /** The machine state is that of a client whose stream also holds descs. */
  ghost predicate AheadBy(c: Client, descs: seq<Cmd>)
    reads c
  {
    && c.abs.lastReqId == c.lastReqId
    && c.abs.lastPostedTrigger == c.lastPostedTrigger
    && c.abs.lastTrigger == c.lastTrigger
    && c.abs.issued == c.stream + descs
    && c.abs.executed == c.executed <= |c.stream|
  }

  predicate Collected(k: int) { 0 <= k }

  /** The client is in order, but for commands descs that are not on its stream yet. */
  ghost predicate Batching(c: Client, descs: seq<Cmd>)
    reads c, c.book.req.Values, c.posted, c.posted.items
  {
    forall k {:trigger Collected(k)} :: Collected(k) ==> c.Sound() && AheadBy(c, descs)
  }

  lemma LookBatching(c: Client, descs: seq<Cmd>)
    requires Batching(c, descs)
    ensures c.Sound() && AheadBy(c, descs)
    ensures descs == [] ==> c.Valid()
  {
    assert Collected(0);
    assert c.stream + [] == c.stream;
  }

  lemma BatchNone(c: Client)
    requires c.Valid()
    ensures Batching(c, [])
  {
    assert c.stream + [] == c.stream;
  }

  lemma PreparedTx(c: Client, r: MpRequest)
    requires Batching(c, []) && Entry(c.book, r.id, AtPrepared, r)
    ensures FlowOf(r.kind) == TX
  {
    LookBatching(c, []);
    PlaceSays(c.abs, c.book, r.id, AtPrepared, r);
  }

  /** A request that is prepared or listed can be posted, with effect only if it is not listed. */
  lemma MayPost(c: Client, r: MpRequest, p: Place)
    requires Ready(c) && Entry(c.book, r.id, p, r) && (p == AtPrepared || p == AtPosted)
    ensures Batching(c, []) && c.abs.lastPostedTrigger == c.lastPostedTrigger
    ensures Enabled(c.abs, IsendPost(r.id)) && Apply(c.abs, IsendPost(r.id)) == IsendPostCall(c.abs, r.id)
    ensures Enabled(c.abs, SendPost(r.id)) && Apply(c.abs, SendPost(r.id)) == SendPostCall(c.abs, r.id)
    ensures p == AtPosted ==> r.id <= c.lastPostedTrigger
  {
    Look(c);
    BatchNone(c);
    PlaceSays(c.abs, c.book, r.id, p, r);
    PostedBelow(c.abs, r.id);
  }

  /** Any request can be waited on; nothing is done for a complete one. */
  lemma MayWait(c: Client, r: MpRequest, p: Place)
    requires Batching(c, []) && Entry(c.book, r.id, p, r)
    ensures var e := WaitOnStream(FlowOf(r.kind), r.id);
      Enabled(c.abs, e) && Apply(c.abs, e) == WaitCall(c.abs, FlowOf(r.kind), r.id)
    ensures r.status == Status.Complete <==> r.id in LaneOf(c.abs, FlowOf(r.kind)).polled
  {
    LookBatching(c, []);
    PlaceSays(c.abs, c.book, r.id, p, r);
  }
}
