/**
  The progress engine of src/mp.c over a client's real queues: triggered sends are handed to the
  NIC, completions are polled, and every pass is the machine's pass.
 */
module Progress {
  import opened Requests
  import opened EventSync
  import opened EventSyncInvariant
  import opened Ledger
  import opened ProgressSpec
  import opened ProgressEffect
  import C = Client
  import PostedList

  /** The head leaves the posted list; what the links of a listed record are is not in the account. */
  method DelinkHead(posted: PostedList.List, r: MpRequest, ghost g: Book)
    requires posted.Valid() && posted.items != [] && posted.items[0] == r && FaithfulBut(g, r.id)
    requires forall id :: id in g.req && id in g.place && !g.place[id].AtPosted? ==> g.req[id] !in posted.items
    modifies posted, (set x | x in posted.items)`next, (set x | x in posted.items)`prev
    ensures posted.Valid() && posted.items == old(posted.items[1..]) && FaithfulBut(g, r.id) && Unlinked(r)
  {
    posted.Delink(r, 0);
    forall id | id in g.req && id != r.id ensures Matches(g.req[id], g.says[id], g.place[id]) {
      ghost var x := g.req[id];
      assert old(Matches(x, g.says[id], g.place[id]));
      if !g.place[id].AtPosted? {
        assert x !in old(posted.items);
        assert x.next == old(x.next) && x.prev == old(x.prev);
      }
    }
  }

  /** The head of the posted list is delinked and PENDING; no other record notices. */
  method UnlinkPosted(posted: PostedList.List, r: MpRequest, ghost g: Book)
    requires Faithful(g) && posted.Valid() && posted.items != [] && posted.items[0] == r
    requires Entry(g, r.id, AtPosted, r) && ViewOf(r) == g.says[r.id]
    requires forall id :: id in g.req && id in g.place && !g.place[id].AtPosted? ==> g.req[id] !in posted.items
    requires forall id :: id in g.req && id != r.id ==> g.req[id] != r
    modifies posted, (set x | x in posted.items)`next, (set x | x in posted.items)`prev, r`status
    ensures posted.Valid() && posted.items == old(posted.items[1..]) && r.status == Pending
    ensures Faithful(Put(g, r.id, AtNic(TX), r, g.says[r.id].(status := Pending)))
  {
    r.status := Pending;
    DelinkHead(posted, r, g);
    FaithfulPut(g, r.id, AtNic(TX), r);
  }

  /** A successful gds_post_send of the head of the posted list. */
  method HandOver(c: C.Client, req: MpRequest)
    requires c.Valid() && Enabled(c.abs, NicPost(true)) && c.posted.items[0] == req
    modifies c`tx, c`rx, c`abs, c`book
    modifies c.posted, (set x | x in c.posted.items)`next, (set x | x in c.posted.items)`prev, req`status
    ensures c.Valid() && c.abs == Apply(old(c.abs), NicPost(true)) && c.book.req == old(c.book).req
    ensures c.posted.items == old(c.posted.items[1..]) && c.tx.nic == old(c.tx.nic) + [req] && req.status == Pending
  {
    ghost var s, g := c.abs, c.book;
    ghost var x := s.tx.posted[0];
    PostAccount(s, g, c.tx, c.rx, c.posted.items);
    RecordSays(s, g, x, AtPosted, req);
    OthersDiffer(s, g, x, req);
    PutSame(g, x, AtNic(TX), req, g.says[x].(status := Pending));
    NonePosted(s, g, c.tx, c.rx, c.posted.items);
    UnlinkPosted(c.posted, req, g);
    c.Update(c.tx.(nic := c.tx.nic + [req]), c.rx, s.(tx := LanePost(s.tx)),
             Put(g, x, AtNic(TX), req, g.says[x].(status := Pending)));
  }

  /** The head of the posted list in the machine's terms. */
  lemma HeadOf(c: C.Client)
    requires c.Valid()
    ensures c.posted.head != null <==> c.abs.tx.posted != []
    ensures c.posted.head != null ==>
      && c.posted.items != [] && c.posted.head == c.posted.items[0] && c.posted.head.id == c.abs.tx.posted[0]
      && c.posted.head.status == Status.Prepared && IsTx(c.posted.head.kind)
    ensures |c.posted.items| == |c.abs.tx.posted|
  {
    if c.abs.tx.posted != [] {
      var x, r := c.abs.tx.posted[0], c.posted.items[0];
      assert Sits(c.book, x, AtPosted, r);
      RecordSays(c.abs, c.book, x, AtPosted, r);
    }
  }

  /** progress_posted_list: ok(id) is whether gds_post_send accepts request id in this pass. */
  method ProgressPostedList(c: C.Client, ok: nat -> bool) returns (ret: int)
    requires c.Valid()
    modifies c`tx, c`rx, c`abs, c`book, c.posted
    modifies (set x | x in c.posted.items)`next, (set x | x in c.posted.items)`prev, (set x | x in c.posted.items)`status
    ensures c.Valid() && c.abs == PostPass(old(c.abs), ok) && c.book.req == old(c.book).req
    ensures ret != C.MP_SUCCESS <==> Enabled(c.abs, NicPost(true)) && !ok(c.abs.tx.posted[0])
  {
    ret := C.MP_SUCCESS;
    ghost var s := c.abs;
    ghost var k := 0;
    HeadOf(c);
    var req := c.posted.head;
    while req != null
      invariant c.Valid() && PostPass(c.abs, ok) == PostPass(s, ok) && c.book.req == old(c.book).req
      invariant req == c.posted.head && (req != null <==> c.abs.tx.posted != [])
      invariant req != null ==>
        && c.posted.items != [] && req == c.posted.items[0] && req.id == c.abs.tx.posted[0]
        && req.status == Status.Prepared && IsTx(req.kind)
      invariant k <= |old(c.posted.items)| && c.posted.items == old(c.posted.items)[k..]
      decreases |c.abs.tx.posted|
    {
      if req.id > c.lastTrigger {
        break;
      }
      assert req.status == Status.Prepared && IsTx(req.kind);
      if !ok(req.id) {
        ret := C.MP_FAILURE;
        break;
      }
      HandOver(c, req);
      k := k + 1;
      HeadOf(c);
      req := c.posted.head;
    }
  }

  // ---- polling -------------------------------------------------------------------------------------

  /** progress_request: a pending request is complete; any other is only reported. */
  method ProgressRequest(req: MpRequest)
    modifies req`status
    ensures req.status ==
      if old(req.status) == PendingNowait || old(req.status) == Pending then Status.Complete else old(req.status)
  {
    match req.status
    case PendingNowait | Pending =>
      req.status := Status.Complete;
    case Prepared | Complete | Undef =>
  }

  /** A pending record becomes complete; no other record notices. */
  method CompleteRecord(posted: PostedList.List, r: MpRequest, ghost p: Place, ghost b: Place, ghost g: Book)
    requires Faithful(g) && posted.Valid() && Entry(g, r.id, p, r) && ViewOf(r) == g.says[r.id] && Unlinked(r)
    requires r.status == PendingNowait || r.status == Pending
    requires forall id :: id in g.req && id != r.id ==> g.req[id] != r
    modifies r`status
    ensures posted.Valid()
    ensures Faithful(Put(g, r.id, b, r, g.says[r.id].(status := Status.Complete)))
  {
    ProgressRequest(r);
    forall id | id in g.req && id != r.id ensures Matches(g.req[id], g.says[id], g.place[id]) {
      assert old(Matches(g.req[id], g.says[id], g.place[id]));
    }
    FaithfulPut(g, r.id, b, r);
  }

  lemma CompletedRecord(c: C.Client, f: Flow)
    requires c.Valid() && LaneOf(c.abs, f).cq != []
    ensures var l, regs := LaneOf(c.abs, f), c.Regs(f);
      && regs.cq != [] && regs.cq[0].id == l.cq[0]
      && (regs.cq[0].status == PendingNowait || regs.cq[0].status == Pending)
      && (regs.cq[0].trigger <==> l.cq[0] in l.triggered)
      && regs.lastTracked == l.lastTracked
      && Entry(c.book, l.cq[0], AtCq(f), regs.cq[0]) && Unlinked(regs.cq[0])
  {
    var l, r := LaneOf(c.abs, f), c.Regs(f).cq[0];
    assert Sits(c.book, l.cq[0], AtCq(f), r);
    RecordSays(c.abs, c.book, l.cq[0], AtCq(f), r);
  }

  /** What the completion at the head of a CQ names. */
  lemma CompletedHead(c: C.Client, f: Flow)
    requires c.Valid() && Inv(c.abs) && LaneOf(c.abs, f).cq != []
    ensures var l, regs := LaneOf(c.abs, f), c.Regs(f);
      && regs.cq != [] && regs.cq[0].id == l.cq[0]
      && (regs.cq[0].status == PendingNowait || regs.cq[0].status == Pending)
      && (regs.cq[0].trigger <==> l.cq[0] in l.triggered)
      && (regs.cq[0].trigger ==> regs.lastTracked < regs.cq[0].id)
      && regs.lastTracked == l.lastTracked
      && Entry(c.book, l.cq[0], AtCq(f), regs.cq[0]) && Unlinked(regs.cq[0])
  {
    CompletedRecord(c, f);
    ReportsRise(c.abs, f);
  }

  /** The completion is taken off the CQ and its request is complete. */
  method FinishPoll(c: C.Client, f: Flow, req: MpRequest, tracked: nat)
    requires c.Valid() && LaneOf(c.abs, f).cq != [] && c.Regs(f).cq != []
    requires req == c.Regs(f).cq[0] && tracked == LanePoll(LaneOf(c.abs, f)).lastTracked
    requires req.status == PendingNowait || req.status == Pending
    modifies c`tx, c`rx, c`abs, c`book, req`status
    ensures c.Valid() && c.abs == PollStep(old(c.abs), f) && c.book.req == old(c.book).req
  {
    ghost var s, g, x := c.abs, c.book, LaneOf(c.abs, f).cq[0];
    PollAccount(s, g, c.tx, c.rx, c.posted.items, f);
    ghost var h := Put(g, x, AtDone(f), req, g.says[x].(status := Status.Complete));
    RecordSays(s, g, x, AtCq(f), req);
    OthersDiffer(s, g, x, req);
    PutSame(g, x, AtDone(f), req, g.says[x].(status := Status.Complete));
    CompleteRecord(c.posted, req, AtCq(f), AtDone(f), g);
    if f.TX? {
      c.Update(RegsPoll(c.tx, tracked), c.rx, PollStep(s, f), h);
    } else {
      c.Update(c.tx, RegsPoll(c.rx, tracked), PollStep(s, f), h);
    }
  }

  /** One completion of flow f: neither the status check nor the assertion on last_tracked_id fails. */
  method PollOne(c: C.Client, f: Flow)
    requires c.Valid() && Inv(c.abs) && LaneOf(c.abs, f).cq != []
    modifies c`lastDoneId, c`tx, c`rx, c`abs, c`book, c.book.req.Values`status
    ensures c.Valid() && c.abs == PollStep(old(c.abs), f) && c.book.req == old(c.book).req
    ensures c.lastDoneId == LaneOf(old(c.abs), f).cq[0]
  {
    CompletedHead(c, f);
    var req := c.Regs(f).cq[0];
    assert req.status == PendingNowait || req.status == Pending;
    var tracked := c.Regs(f).lastTracked;
    if req.trigger {
      assert tracked < req.id;
      tracked := req.id;
    }
    assert tracked == LanePoll(LaneOf(c.abs, f)).lastTracked;
    c.lastDoneId := req.id;
    FinishPoll(c, f, req, tracked);
  }

  lemma ItemsInBook(c: C.Client)
    requires c.Valid()
    ensures forall x :: x in c.posted.items ==> x in c.book.req.Values
  {
    forall i | 0 <= i < |c.posted.items| ensures c.posted.items[i] in c.book.req.Values {
      assert Sits(c.book, c.abs.tx.posted[i], AtPosted, c.posted.items[i]);
    }
  }

  /** The n completions taken off the CQ of a flow are processed one by one. */
  method PollCq(c: C.Client, f: Flow, n: nat)
    requires c.Valid() && Inv(c.abs) && n <= |LaneOf(c.abs, f).cq|
    modifies c`lastDoneId, c`tx, c`rx, c`abs, c`book, c.book.req.Values`status
    ensures c.Valid() && c.abs == PollMany(old(c.abs), f, n) && c.book.req == old(c.book).req
    ensures c.lastDoneId == if n > 0 then LaneOf(old(c.abs), f).cq[n - 1] else old(c.lastDoneId)
  {
    ghost var p := c.abs;
    var j := 0;
    while j < n
      invariant j <= n && c.Valid() && c.book.req == old(c.book).req
      invariant c.abs == PollMany(p, f, j)
      invariant c.lastDoneId == if j > 0 then LaneOf(p, f).cq[j - 1] else old(c.lastDoneId)
    {
      PollManyNext(p, f, j);
      PollOne(c, f);
      j := j + 1;
    }
  }

  /** mp_progress_single_flow: ne is what ibv_poll_cq returns, negative on an error. */
  method ProgressSingleFlow(c: C.Client, f: Flow, ok: nat -> bool, ne: int) returns (ret: int)
    requires c.Valid() && Inv(c.abs) && ne <= CQ_POLL_COUNT && ne <= |LaneOf(c.abs, f).cq|
    modifies c`lastDoneId, c`tx, c`rx, c`abs, c`book, c.posted
    modifies c.book.req.Values`next, c.book.req.Values`prev, c.book.req.Values`status
    ensures c.Valid() && Progressed(old(c.abs), c.abs, f, ok, ne) && c.book.req == old(c.book).req
    ensures c.abs == ProgressPass(old(c.abs), f, ok, ne)
    ensures ret == if ne < 0 then C.MP_FAILURE else C.MP_SUCCESS
    ensures ne > 0 ==> c.lastDoneId == LaneOf(old(c.abs), f).cq[ne - 1]
  {
    ret := C.MP_SUCCESS;
    ProgressExact(c.abs, f, ok, ne);
    PostPassLeads(c.abs, ok);
    LeadsKeeps(c.abs, PostPass(c.abs, ok));
    if f.TX? {
      ItemsInBook(c);
      var _ := ProgressPostedList(c, ok);
    }
    if ne < 0 {
      return C.MP_FAILURE;
    }
    PollCq(c, f, ne);
  }

  // ---- the stream and the NIC ------------------------------------------------------------------------

  /** The NIC completes the oldest request of a flow. */
  method NicDelivers(c: C.Client, f: Flow)
    requires c.Valid() && LaneOf(c.abs, f).nic != []
    modifies c`tx, c`rx, c`abs, c`book
    ensures c.Valid() && c.abs == WithLane(old(c.abs), f, LaneComplete(LaneOf(old(c.abs), f)))
    ensures c.book.req == old(c.book).req
  {
    ghost var s, g, x := c.abs, c.book, LaneOf(c.abs, f).nic[0];
    CompleteAccount(s, g, c.tx, c.rx, c.posted.items, f);
    ghost var r := c.Regs(f).nic[0];
    ghost var t := WithLane(s, f, LaneComplete(LaneOf(s, f)));
    RecordSays(s, g, x, AtNic(f), r);
    FaithfulMove(g, x, AtNic(f), AtCq(f), r);
    if f.TX? {
      c.Update(RegsComplete(c.tx), c.rx, t, Put(g, x, AtCq(f), r, g.says[x]));
    } else {
      c.Update(c.tx, RegsComplete(c.rx), t, Put(g, x, AtCq(f), r, g.says[x]));
    }
  }

  /** The stream is waiting for last_tracked_id to reach the id of its next command. */
  predicate Waits(c: C.Client)
    requires c.executed < |c.stream|
    reads c
  {
    var cmd := c.stream[c.executed];
    cmd.WaitTracked? && c.Regs(cmd.flow).lastTracked < cmd.id
  }

  /** The stream runs its next command. */
  method RunStream(c: C.Client)
    requires c.Valid() && c.executed < |c.stream| && !Waits(c)
    modifies c`executed, c`lastTrigger, c`tx, c`rx, c`abs, c`book
    ensures c.Valid() && Enabled(old(c.abs), StreamStep) && c.abs == StreamExec(old(c.abs))
    ensures c.book == old(c.book)
  {
    ghost var s := c.abs;
    StreamAccount(s, c.book, c.tx, c.rx, c.posted.items);
    var cmd := c.stream[c.executed];
    c.executed := c.executed + 1;
    if cmd.Trigger? {
      c.lastTrigger := cmd.id;
    }
    c.Settle(StreamExec(s), c.book);
  }

  /** One event. */
  method Occur(c: C.Client, e: Event)
    requires c.Valid()
    modifies c`executed, c`lastTrigger, c`tx, c`rx, c`abs, c`book
    ensures c.Valid() && c.abs == Happens(old(c.abs), e) && c.book.req == old(c.book).req
    ensures c.posted.items == old(c.posted.items)
  {
    match e {
      case StreamRuns =>
        if c.executed < |c.stream| && !Waits(c) {
          RunStream(c);
        }
      case NicCompletes(f) =>
        if c.Regs(f).nic != [] {
          NicDelivers(c, f);
        }
    }
  }

  /** Whatever of the events is possible happens, in order. */
  method Environment(c: C.Client, events: seq<Event>)
    requires c.Valid()
    modifies c`executed, c`lastTrigger, c`tx, c`rx, c`abs, c`book
    ensures c.Valid() && c.abs == Meanwhile(old(c.abs), events) && c.book.req == old(c.book).req
    ensures c.posted.items == old(c.posted.items)
  {
    var i := 0;
    while i < |events|
      invariant i <= |events| && c.Valid() && c.abs == Meanwhile(old(c.abs), events[..i]) && c.book.req == old(c.book).req
    {
      MeanwhileNext(old(c.abs), events, i);
      Occur(c, events[i]);
      i := i + 1;
    }
    assert events[..i] == events;
  }
}
