/**
  The batched stream calls of src/mp_peersync.c in event mode: descriptors are collected in a local
  array while requests are tracked one by one, and posted to the stream together at the end.
 */
module Batch {
  import opened Requests
  import opened EventSync
  import opened EventSyncInvariant
  import opened Ledger
  import opened BatchSpec
  import opened ProgressSpec
  import C = Client

  // ---- the requests of a batch ---------------------------------------------------------------------------

  /** r is a prepared send, or a request, wherever it is by now, whose id is not above the mark. */
  ghost predicate Postable(g: Book, mark: nat, r: MpRequest)
    reads r`id, r`kind
  {
    Entry(g, r.id, AtPrepared, r) || (IsTx(r.kind) && r.id <= mark)
  }

  ghost predicate AllPostable(g: Book, mark: nat, reqs: seq<MpRequest>)
    reads (set r | r in reqs)`id, (set r | r in reqs)`kind
  {
    forall i {:trigger Postable(g, mark, reqs[i])} :: 0 <= i < |reqs| ==> Postable(g, mark, reqs[i])
  }

  ghost predicate IdsOf(ids: seq<nat>, reqs: seq<MpRequest>)
    reads (set r | r in reqs)`id
  {
    |ids| == |reqs| && forall i {:trigger ids[i]} :: 0 <= i < |ids| ==> ids[i] == reqs[i].id
  }

  /** Accepting one request raises the mark; the others stay postable, or become refused ones. */
  lemma StillPostable(g: Book, h: Book, mark: nat, id: nat, reqs: seq<MpRequest>)
    requires AllPostable(g, mark, reqs) && mark < id
    requires id in g.req && id in g.says && h == Put(g, id, AtPosted, g.req[id], g.says[id]) && IsTx(g.req[id].kind)
    ensures AllPostable(h, id, reqs)
  {
    forall i | 0 <= i < |reqs| ensures Postable(h, id, reqs[i]) {
      assert Postable(g, mark, reqs[i]);
    }
  }

  // ---- tracking a request of a batch ------------------------------------------------------------------------

  /** One request of the batch: its trigger write goes to the local array. */
  method TrackNext(c: C.Client, req: MpRequest, descs: seq<Cmd>, ghost reqs: seq<MpRequest>)
    requires C.Batching(c, descs) && AllPostable(c.book, c.lastPostedTrigger, reqs)
    requires Postable(c.book, c.lastPostedTrigger, req) && c.lastPostedTrigger < req.id
    modifies c`lastPostedTrigger, c`tx, c`rx, c`abs, c`book
    modifies c.posted, (set x | x in c.posted.items)`next, req`prev
    ensures C.Batching(c, descs + [Trigger(req.id)]) && c.abs == Accept(old(c.abs), req.id)
    ensures c.lastPostedTrigger == req.id && AllPostable(c.book, req.id, reqs)
    ensures c.posted.items == old(c.posted.items) + [req]
    ensures Entry(c.book, req.id, AtPosted, req) && c.book.req == old(c.book).req
  {
    C.LookBatching(c, descs);
    ghost var g := c.book;
    PutSame(g, req.id, AtPosted, req, g.says[req.id]);
    PlaceSays(c.abs, g, req.id, AtPrepared, req);
    c.TrackPosted(req);
    StillPostable(g, c.book, old(c.lastPostedTrigger), req.id, reqs);
    assert c.stream + (descs + [Trigger(req.id)]) == (c.stream + descs) + [Trigger(req.id)];
  }

  /** The collected descriptors reach the stream. */
  method PostAll(c: C.Client, descs: seq<Cmd>)
    requires C.Batching(c, descs)
    modifies c`stream
    ensures C.Batching(c, []) && c.stream == old(c.stream) + descs
  {
    C.LookBatching(c, descs);
    c.PostDescriptors(descs);
    assert c.stream + [] == c.stream;
  }

  function Triggers(ids: seq<nat>): (descs: seq<Cmd>) {
    seq(|ids|, i requires 0 <= i < |ids| => Trigger(ids[i]))
  }

  lemma TriggersNext(ids: seq<nat>, n: nat)
    requires n < |ids|
    ensures Triggers(ids[..n]) + [Trigger(ids[n])] == Triggers(ids[..n + 1])
  {
  }

  lemma MarkIs(c: C.Client, descs: seq<Cmd>)
    requires C.Batching(c, descs)
    ensures c.abs.lastPostedTrigger == c.lastPostedTrigger && c.abs.issued == c.stream + descs
  {
    C.LookBatching(c, descs);
  }

  /** The wait for a request that was just tracked. */
  method WaitPosted(c: C.Client, req: MpRequest, descs: seq<Cmd>) returns (more: seq<Cmd>)
    requires C.Batching(c, descs) && Entry(c.book, req.id, AtPosted, req)
    modifies c`tx, c`rx, c`abs, c`book, req`trigger
    ensures C.Batching(c, descs + more) && c.abs == TrackWait(old(c.abs), TX, req.id)
    ensures c.posted.items == old(c.posted.items) && c.book.req == old(c.book).req
    ensures var g := old(c.book);
      c.book == g || c.book == Put(g, req.id, AtPosted, req, g.says[req.id].(trigger := true))
  {
    C.LookBatching(c, descs);
    RecordSays(c.abs, c.book, req.id, AtPosted, req);
    assert FlowOf(req.kind) == TX;
    more := c.TrackWaited(req, AtPosted);
    assert c.stream + (descs + more) == (c.stream + descs) + more;
  }

  /** One request of the batch, with the wait for its completion. */
  method TrackNextAndWait(c: C.Client, req: MpRequest, descs: seq<Cmd>, ghost reqs: seq<MpRequest>)
    returns (more: seq<Cmd>)
    requires C.Batching(c, descs) && AllPostable(c.book, c.lastPostedTrigger, reqs)
    requires Postable(c.book, c.lastPostedTrigger, req) && c.lastPostedTrigger < req.id
    modifies c`lastPostedTrigger, c`tx, c`rx, c`abs, c`book
    modifies c.posted, (set x | x in c.posted.items)`next, req`prev, req`trigger
    ensures C.Batching(c, descs + [Trigger(req.id)] + more)
    ensures c.abs == TrackWait(Accept(old(c.abs), req.id), TX, req.id)
    ensures c.lastPostedTrigger == req.id && AllPostable(c.book, req.id, reqs)
    ensures c.posted.items == old(c.posted.items) + [req] && c.book.req == old(c.book).req
  {
    TrackNext(c, req, descs, reqs);
    ghost var g := c.book;
    more := WaitPosted(c, req, descs + [Trigger(req.id)]);
    FlaggedPostable(g, c.book, req.id, reqs);
  }

  /** Raising a flag changes what a record says, not whether it can be posted. */
  lemma FlaggedPostable(g: Book, h: Book, id: nat, reqs: seq<MpRequest>)
    requires AllPostable(g, id, reqs) && id in g.req && id in g.place && id in g.says
    requires h == g || h == Put(g, id, g.place[id], g.req[id], g.says[id].(trigger := true))
    ensures AllPostable(h, id, reqs)
  {
    forall i | 0 <= i < |reqs| ensures Postable(h, id, reqs[i]) {
      assert Postable(g, id, reqs[i]);
    }
  }

  /**
    An immediate send above the mark passes the test of the batched calls as well, which look at ids only.
    Its record, still with the NIC or complete, is linked into the posted list; the progress pass that
    reaches it stops at the assertion that its status is PREPARED.
   */
  method TrackHanded(c: C.Client, req: MpRequest, ghost p: Place)
    requires c.Valid() && Entry(c.book, req.id, p, req) && (p == AtNic(TX) || p == AtCq(TX) || p == AtDone(TX))
    requires c.lastPostedTrigger < req.id
    modifies c`lastPostedTrigger, c.posted, (set x | x in c.posted.items)`next, req`prev
    ensures c.posted.Valid() && c.posted.items == old(c.posted.items) + [req] && c.lastPostedTrigger == req.id
    ensures req.id in Handed(c.abs.tx) && !req.status.Prepared?
  {
    NotPosted(c.abs, c.book, c.tx, c.rx, c.posted.items, req.id, p, req);
    RecordSays(c.abs, c.book, req.id, p, req);
    c.lastPostedTrigger := req.id;
    c.posted.Track(req);
  }

  // ---- one request after the other --------------------------------------------------------------------------

  /** What the call found: the machine, the stream and the posted list before the batch. */
  datatype Start = Start(s: State, stream: seq<Cmd>, items: seq<MpRequest>)

  /** The first n requests of the batch were tracked, and the stream got nothing yet. */
  ghost predicate Tracked(c: C.Client, from: Start, reqs: seq<MpRequest>, ids: seq<nat>, n: nat, wait: bool)
    requires n <= |reqs| == |ids|
    reads c, c.posted, (set r | r in reqs)`id, (set r | r in reqs)`kind
  {
    && RisesTo(ids, n, from.s.lastPostedTrigger)
    && c.abs == PostEach(from.s, ids[..n], wait) && c.stream == from.stream
    && c.posted.items == from.items + reqs[..n]
    && c.lastPostedTrigger == (if n == 0 then from.s.lastPostedTrigger else ids[n - 1])
    && AllPostable(c.book, c.lastPostedTrigger, reqs)
  }

  /** The next request of a batch, its id above the mark. */
  method TrackAt(c: C.Client, reqs: seq<MpRequest>, wait: bool, descs: seq<Cmd>, n: nat,
                 ghost from: Start, ghost ids: seq<nat>) returns (more: seq<Cmd>)
    requires n < |reqs| && IdsOf(ids, reqs) && C.Batching(c, descs) && Tracked(c, from, reqs, ids, n, wait)
    requires c.lastPostedTrigger < reqs[n].id
    modifies c`lastPostedTrigger, c`tx, c`rx, c`abs, c`book
    modifies c.posted, (set x | x in c.posted.items)`next, (set r | r in reqs)`prev, (set r | r in reqs)`trigger
    ensures C.Batching(c, descs + more) && Tracked(c, from, reqs, ids, n + 1, wait)
    ensures !wait ==> more == [Trigger(ids[n])]
    ensures c.book.req == old(c.book).req
  {
    var req := reqs[n];
    assert req.id == ids[n] && Postable(c.book, c.lastPostedTrigger, reqs[n]);
    RisesNext(ids, n, from.s.lastPostedTrigger);
    MarkIs(c, descs);
    PrefixNext(ids, n);
    assert reqs[..n + 1] == reqs[..n] + [req];
    if wait {
      var w := TrackNextAndWait(c, req, descs, reqs);
      more := [Trigger(req.id)] + w;
      assert descs + more == descs + [Trigger(req.id)] + w;
    } else {
      TrackNext(c, req, descs, reqs);
      more := [Trigger(req.id)];
    }
  }

  /**
    mp_isend_post_all_on_stream. It succeeds exactly on strictly rising ids above the mark, and then
    the client is as after posting each request by itself. When the order breaks at n, the first n
    requests are tracked but the stream got none of their trigger writes.
   */
  method IsendPostAll(c: C.Client, reqs: seq<MpRequest>, ghost ids: seq<nat>) returns (ret: int, ghost n: nat)
    requires C.Batching(c, []) && AllPostable(c.book, c.lastPostedTrigger, reqs) && IdsOf(ids, reqs)
    modifies c`lastPostedTrigger, c`stream, c`tx, c`rx, c`abs, c`book
    modifies c.posted, (set x | x in c.posted.items)`next
    modifies (set r | r in reqs)`next, (set r | r in reqs)`prev, (set r | r in reqs)`trigger
    ensures BreaksAt(ids, n, old(c.lastPostedTrigger)) && (ret == C.MP_SUCCESS <==> n == |ids|)
    ensures c.abs == PostEach(old(c.abs), ids[..n], false)
    ensures c.posted.items == old(c.posted.items) + reqs[..n] && c.book.req == old(c.book).req
    ensures ret == C.MP_SUCCESS ==> C.Batching(c, []) && c.stream == old(c.stream) + Triggers(ids)
    ensures ret != C.MP_SUCCESS ==> C.Batching(c, Triggers(ids[..n])) && c.stream == old(c.stream)
  {
    MarkIs(c, []);
    ghost var from := Start(c.abs, c.stream, c.posted.items);
    var descs: seq<Cmd> := [];
    var i := 0;
    n := 0;
    while i < |reqs|
      invariant i == n <= |reqs| && C.Batching(c, descs) && descs == Triggers(ids[..n])
      invariant Tracked(c, from, reqs, ids, n, false) && c.book.req == old(c.book).req
    {
      RisesNext(ids, n, from.s.lastPostedTrigger);
      if reqs[i].id <= c.lastPostedTrigger {
        return C.MP_FAILURE, n;
      }
      TriggersNext(ids, n);
      var more := TrackAt(c, reqs, false, descs, i, from, ids);
      descs := descs + more;
      i, n := i + 1, n + 1;
    }
    assert ids[..n] == ids;
    PostAll(c, descs);
    ret := C.MP_SUCCESS;
  }

  /**
    mp_send_post_all_on_stream: the same, with a wait after each trigger write. On a broken order
    the commands in lost were queued by the single calls but never reach the stream.
   */
  method SendPostAll(c: C.Client, reqs: seq<MpRequest>, ghost ids: seq<nat>)
    returns (ret: int, ghost n: nat, ghost lost: seq<Cmd>)
    requires C.Batching(c, []) && AllPostable(c.book, c.lastPostedTrigger, reqs) && IdsOf(ids, reqs)
    modifies c`lastPostedTrigger, c`stream, c`tx, c`rx, c`abs, c`book
    modifies c.posted, (set x | x in c.posted.items)`next
    modifies (set r | r in reqs)`next, (set r | r in reqs)`prev, (set r | r in reqs)`trigger
    ensures BreaksAt(ids, n, old(c.lastPostedTrigger)) && (ret == C.MP_SUCCESS <==> n == |ids|)
    ensures c.abs == PostEach(old(c.abs), ids[..n], true)
    ensures c.posted.items == old(c.posted.items) + reqs[..n] && c.book.req == old(c.book).req
    ensures C.Batching(c, lost) && (ret == C.MP_SUCCESS ==> lost == [])
    ensures ret != C.MP_SUCCESS ==> c.stream == old(c.stream)
  {
    MarkIs(c, []);
    ghost var from := Start(c.abs, c.stream, c.posted.items);
    var descs: seq<Cmd> := [];
    var i := 0;
    n := 0;
    while i < |reqs|
      invariant i == n <= |reqs| && C.Batching(c, descs) && Tracked(c, from, reqs, ids, n, true)
      invariant c.book.req == old(c.book).req
    {
      RisesNext(ids, n, from.s.lastPostedTrigger);
      if reqs[i].id <= c.lastPostedTrigger {
        return C.MP_FAILURE, n, descs;
      }
      var more := TrackAt(c, reqs, true, descs, i, from, ids);
      descs := descs + more;
      i, n := i + 1, n + 1;
    }
    assert ids[..n] == ids;
    PostAll(c, descs);
    ret, lost := C.MP_SUCCESS, [];
  }

  /** A batch in order leaves the client ready for any other call. */
  lemma ReadyAfterPosts(c: C.Client, s: State, ids: seq<nat>, wait: bool)
    requires C.Batching(c, []) && c.abs == PostEach(s, ids, wait) && Inv(s) && InLine(s, ids)
    ensures C.Ready(c)
  {
    C.LookBatching(c, []);
    PostEachGoes(s, ids, wait);
    GoesKeeps(s, c.abs);
  }

  lemma ReadyAfterWaits(c: C.Client, s: State, keys: seq<Awaited>)
    requires C.Batching(c, []) && c.abs == WaitEach(s, keys) && Inv(s) && AllAccepted(s, keys)
    ensures C.Ready(c)
  {
    C.LookBatching(c, []);
    WaitEachGoes(s, keys);
    GoesKeeps(s, c.abs);
  }

  // ---- mp_wait_all_on_stream -------------------------------------------------------------------------------

  /** r is the record of a live request and not complete. */
  ghost predicate Awaitable(req: map<nat, MpRequest>, place: map<nat, Place>, r: MpRequest)
    reads r`id, r`status
  {
    && r.id in req && req[r.id] == r
    && r.id in place
    && r.status != Status.Complete
  }

  ghost predicate AllAwaitable(req: map<nat, MpRequest>, place: map<nat, Place>, reqs: seq<MpRequest>)
    reads (set r | r in reqs)`id, (set r | r in reqs)`status
  {
    forall i {:trigger Awaitable(req, place, reqs[i])} :: 0 <= i < |reqs| ==> Awaitable(req, place, reqs[i])
  }

  ghost predicate AwaitedOf(keys: seq<Awaited>, reqs: seq<MpRequest>)
    reads (set r | r in reqs)`id, (set r | r in reqs)`kind
  {
    && |keys| == |reqs|
    && forall i {:trigger keys[i]} :: 0 <= i < |keys| ==> keys[i] == Awaited(FlowOf(reqs[i].kind), reqs[i].id)
  }

  method WaitNext(c: C.Client, req: MpRequest, descs: seq<Cmd>) returns (more: seq<Cmd>)
    requires C.Batching(c, descs) && Awaitable(c.book.req, c.book.place, req)
    modifies c`tx, c`rx, c`abs, c`book, req`trigger
    ensures C.Batching(c, descs + more) && c.abs == WaitCall(old(c.abs), FlowOf(old(req.kind)), req.id)
    ensures c.book.req == old(c.book).req && c.book.place == old(c.book).place
  {
    C.LookBatching(c, descs);
    PlaceSays(c.abs, c.book, req.id, c.book.place[req.id], req);
    more := c.TrackWaited(req, c.book.place[req.id]);
    assert c.stream + (descs + more) == (c.stream + descs) + more;
  }

  /** mp_wait_all_on_stream on requests that are not complete: the waits of the single calls. */
  method WaitAllOnStream(c: C.Client, reqs: seq<MpRequest>, ghost keys: seq<Awaited>)
    requires C.Batching(c, []) && AllAwaitable(c.book.req, c.book.place, reqs) && AwaitedOf(keys, reqs)
    modifies c`stream, c`tx, c`rx, c`abs, c`book, (set r | r in reqs)`trigger
    ensures C.Batching(c, []) && c.abs == WaitEach(old(c.abs), keys)
    ensures c.book.req == old(c.book).req && c.book.place == old(c.book).place
  {
    var descs: seq<Cmd> := [];
    var i := 0;
    while i < |reqs|
      invariant i <= |reqs| && C.Batching(c, descs) && c.stream == old(c.stream)
      invariant c.abs == WaitEach(old(c.abs), keys[..i])
      invariant c.book.req == old(c.book).req && c.book.place == old(c.book).place
    {
      assert Awaitable(c.book.req, c.book.place, reqs[i]);
      assert keys[..i + 1][..i] == keys[..i] && keys[..i + 1][i] == keys[i];
      var more := WaitNext(c, reqs[i], descs);
      descs := descs + more;
      i := i + 1;
    }
    assert keys[..i] == keys;
    PostAll(c, descs);
  }
}
