/**
  The descriptor queue of src/desc_queue.cpp against the one-at-a-time stream calls, outside event
  mode: commands are collected and posted together, statuses change as they are added.
 */
module DescQueue {
  import opened Requests

  /** What reaches the stream. */
  datatype Desc =
    | Send(id: nat)
    | WaitCq(id: nat)
    | WaitValue(ptr: nat, value: nat, cond: int)
    | WriteValue(ptr: nat, value: nat)

  datatype Call =
    | PostSend(id: nat)
    | WaitSend(id: nat)
    | WaitRecv(id: nat)
    | WaitWord(ptr: nat, value: nat, cond: int)
    | WriteWord(ptr: nat, value: nat)

  function DescOf(c: Call): (d: Desc) {
    match c
    case PostSend(id) => Send(id)
    case WaitSend(id) => WaitCq(id)
    case WaitRecv(id) => WaitCq(id)
    case WaitWord(p, v, cond) => WaitValue(p, v, cond)
    case WriteWord(p, v) => WriteValue(p, v)
  }

  datatype Rec = Rec(kind: ReqType, nowait: bool, status: Status)

  /** What the assertions of the calls ask of a request. */
  predicate Accepts(r: Rec, c: Call) {
    match c
    case PostSend(_) => IsTx(r.kind) && r.status == Status.Prepared
    case WaitSend(_) => IsTx(r.kind) && Waitable(r.kind, r.nowait) && (r.status == PendingNowait || r.status == Status.Complete)
    case WaitRecv(_) => r.kind.RecvReq? && (r.status == PendingNowait || r.status == Status.Complete)
    case _ => true
  }

  /** The status a request has once the command is in the queue. */
  function QueuedStatus(r: Rec, c: Call): (st: Status) { if c.PostSend? then PendingNowait else Pending }

  /** And once a single call put it on the stream: mp_isend_post, mp_iput_post, mp_wait_on_stream. */
  function DirectStatus(r: Rec, c: Call): (st: Status) {
    if c.PostSend? then (if r.kind.RdmaReq? && r.nowait then Status.Complete else PendingNowait) else Pending
  }

  /** The queue and the single call agree on a request except for unsignalled puts. */
  lemma StatusIff(r: Rec, c: Call)
    requires Accepts(r, c)
    ensures QueuedStatus(r, c) == DirectStatus(r, c) <==> !(c.PostSend? && Unsignalled(r))
  {
  }

  // ---- whole programs ---------------------------------------------------------------------------------------

  datatype World = World(reqs: map<nat, Rec>, stream: seq<Desc>)

  predicate OnRequest(c: Call) { c.PostSend? || c.WaitSend? || c.WaitRecv? }

  predicate Ready(reqs: map<nat, Rec>, c: Call) { OnRequest(c) ==> c.id in reqs && Accepts(reqs[c.id], c) }

  function Direct(w: World, c: Call): (t: World)
    requires Ready(w.reqs, c)
  {
    World(if OnRequest(c) then w.reqs[c.id := w.reqs[c.id].(status := DirectStatus(w.reqs[c.id], c))] else w.reqs,
          w.stream + [DescOf(c)])
  }

  datatype Batched = Batched(w: World, queue: seq<Desc>)

  datatype Act = Add(call: Call) | Post

  predicate CanAct(b: Batched, a: Act) { a.Add? ==> Ready(b.w.reqs, a.call) }

  function Do(b: Batched, a: Act): (t: Batched)
    requires CanAct(b, a)
  {
    match a
    case Add(c) =>
      Batched(b.w.(reqs := if OnRequest(c) then b.w.reqs[c.id := b.w.reqs[c.id].(status := QueuedStatus(b.w.reqs[c.id], c))]
                           else b.w.reqs),
              b.queue + [DescOf(c)])
    case Post => Batched(b.w.(stream := b.w.stream + b.queue), [])
  }

  ghost predicate Program(states: seq<Batched>, acts: seq<Act>) {
    && |states| == |acts| + 1
    && forall i {:trigger acts[i]} :: 0 <= i < |acts| ==> CanAct(states[i], acts[i]) && states[i + 1] == Do(states[i], acts[i])
  }

  predicate Unsignalled(r: Rec) { r.kind.RdmaReq? && r.nowait }

  /** The act adds an unsignalled put to the queue. */
  predicate AddsUnsignalled(reqs: map<nat, Rec>, a: Act) {
    a.Add? && a.call.PostSend? && a.call.id in reqs && Unsignalled(reqs[a.call.id])
  }

  /** No unsignalled put is posted through the queue. */
  predicate Signalled(reqs: map<nat, Rec>, acts: seq<Act>) {
    forall i :: 0 <= i < |acts| ==> !AddsUnsignalled(reqs, acts[i])
  }

  function Calls(acts: seq<Act>): (cs: seq<Call>) {
    if acts == [] then []
    else Calls(acts[..|acts| - 1]) + if acts[|acts| - 1].Add? then [acts[|acts| - 1].call] else []
  }

  /** The same calls made one at a time. */
  ghost predicate OneAtATime(worlds: seq<World>, calls: seq<Call>) {
    && |worlds| == |calls| + 1
    && forall i {:trigger calls[i]} :: 0 <= i < |calls| ==>
         Ready(worlds[i].reqs, calls[i]) && worlds[i + 1] == Direct(worlds[i], calls[i])
  }

  /**
    What a request is after the queue, x, and after single calls, y: the same, or an unsignalled put
    that the queue left PENDING_NOWAIT and the single call completed.
   */
  predicate Parallel(x: Rec, y: Rec) {
    || x == y
    || (Unsignalled(x) && x.status == PendingNowait && y == x.(status := Status.Complete))
  }

  predicate AllParallel(was: map<nat, Rec>, a: map<nat, Rec>, b: map<nat, Rec>) {
    && was.Keys == a.Keys == b.Keys
    && forall id {:trigger a[id]} :: id in a ==>
         Parallel(a[id], b[id]) && a[id].kind == was[id].kind && a[id].nowait == was[id].nowait
  }

  /** A call the queue takes is one the single call takes: the two agree on its request so far. */
  lemma SameSoFar(x: Rec, y: Rec, c: Call)
    requires Parallel(x, y) && Accepts(x, c) && OnRequest(c)
    ensures x == y
  {
  }

  /** A call on a request changes its status, the two ways differently exactly when it is an unsignalled put. */
  lemma RequestBothWays(was: map<nat, Rec>, x: map<nat, Rec>, y: map<nat, Rec>, c: Call)
    requires AllParallel(was, x, y) && OnRequest(c) && c.id in x && Accepts(x[c.id], c)
    ensures Accepts(y[c.id], c)
    ensures var p, q := x[c.id := x[c.id].(status := QueuedStatus(x[c.id], c))],
                        y[c.id := y[c.id].(status := DirectStatus(y[c.id], c))];
      && AllParallel(was, p, q)
      && (p == q <==> x == y && !AddsUnsignalled(was, Add(c)))
  {
    SameSoFar(x[c.id], y[c.id], c);
    StatusIff(x[c.id], c);
    var p, q := x[c.id := x[c.id].(status := QueuedStatus(x[c.id], c))],
                y[c.id := y[c.id].(status := DirectStatus(y[c.id], c))];
    assert x[c.id].kind == was[c.id].kind;
    if x != y {
      var id :| id in x && x[id] != y[id];
      assert id != c.id && p[id] != q[id];
    } else if AddsUnsignalled(was, Add(c)) {
      assert p[c.id] != q[c.id];
    }
  }

  /** One more call: it goes through both ways, and what has come apart stays apart. */
  lemma CallBothWays(was: map<nat, Rec>, b: Batched, w: World, c: Call)
    requires AllParallel(was, b.w.reqs, w.reqs) && Ready(b.w.reqs, c)
    ensures Ready(w.reqs, c)
    ensures AllParallel(was, Do(b, Add(c)).w.reqs, Direct(w, c).reqs)
    ensures Do(b, Add(c)).w.reqs == Direct(w, c).reqs <==>
            b.w.reqs == w.reqs && !AddsUnsignalled(was, Add(c))
  {
    if OnRequest(c) { RequestBothWays(was, b.w.reqs, w.reqs, c); }
  }

  lemma SignalledNext(reqs: map<nat, Rec>, acts: seq<Act>)
    requires acts != []
    ensures Signalled(reqs, acts) <==>
            Signalled(reqs, acts[..|acts| - 1]) && !AddsUnsignalled(reqs, acts[|acts| - 1])
  {
    assert acts == acts[..|acts| - 1] + [acts[|acts| - 1]];
  }

  lemma ProgramInit(states: seq<Batched>, acts: seq<Act>)
    requires Program(states, acts) && acts != []
    ensures Program(states[..|acts|], acts[..|acts| - 1])
  {
    var n, init := |acts|, acts[..|acts| - 1];
    forall i {:trigger init[i]} | 0 <= i < |init|
      ensures CanAct(states[..n][i], init[i]) && states[..n][i + 1] == Do(states[..n][i], init[i])
    {
      assert init[i] == acts[i];
    }
  }

  lemma OneMore(worlds: seq<World>, calls: seq<Call>, c: Call)
    requires OneAtATime(worlds, calls) && Ready(worlds[|calls|].reqs, c)
    ensures OneAtATime(worlds + [Direct(worlds[|calls|], c)], calls + [c])
  {
    var ws, cs := worlds + [Direct(worlds[|calls|], c)], calls + [c];
    forall i {:trigger cs[i]} | 0 <= i < |cs| ensures Ready(ws[i].reqs, cs[i]) && ws[i + 1] == Direct(ws[i], cs[i]) {
      if i < |calls| { assert cs[i] == calls[i]; }
    }
  }

  /** The two ways so far: what the stream got plus what still waits in the queue is what the single calls put there. */
  ghost predicate BothWays(was: map<nat, Rec>, b: Batched, w: World, signalled: bool) {
    && b.w.stream + b.queue == w.stream
    && AllParallel(was, b.w.reqs, w.reqs)
    && (b.w.reqs == w.reqs <==> signalled)
  }

  lemma AddBothWays(was: map<nat, Rec>, b: Batched, w: World, c: Call, signalled: bool)
    requires BothWays(was, b, w, signalled) && Ready(b.w.reqs, c)
    ensures Ready(w.reqs, c)
    ensures BothWays(was, Do(b, Add(c)), Direct(w, c), signalled && !AddsUnsignalled(was, Add(c)))
  {
    CallBothWays(was, b, w, c);
    assert b.w.stream + (b.queue + [DescOf(c)]) == (b.w.stream + b.queue) + [DescOf(c)];
  }

  lemma PostBothWays(was: map<nat, Rec>, b: Batched, w: World, signalled: bool)
    requires BothWays(was, b, w, signalled)
    ensures BothWays(was, Do(b, Post), w, signalled)
  {
    assert (b.w.stream + b.queue) + [] == b.w.stream + b.queue;
  }

  /** The single calls after one more act. */
  lemma NextBothWays(was: map<nat, Rec>, b: Batched, a: Act, worlds: seq<World>, calls: seq<Call>, signalled: bool)
    returns (more: seq<World>)
    requires OneAtATime(worlds, calls) && BothWays(was, b, worlds[|calls|], signalled) && CanAct(b, a)
    ensures var next := calls + if a.Add? then [a.call] else [];
      && OneAtATime(more, next) && more[0] == worlds[0]
      && BothWays(was, Do(b, a), more[|next|], signalled && !AddsUnsignalled(was, a))
  {
    var w := worlds[|calls|];
    if a.Add? {
      AddBothWays(was, b, w, a.call, signalled);
      OneMore(worlds, calls, a.call);
      more := worlds + [Direct(w, a.call)];
    } else {
      PostBothWays(was, b, w, signalled);
      more := worlds;
      assert calls + [] == calls;
    }
  }

  /**
    Adding and posting, in whatever portions, against the same calls made one at a time. Whatever the
    queue takes, the single calls take, and what the stream got plus what still waits in the queue is
    what they put on the stream. The requests are left the same except unsignalled puts, which the queue
    leaves PENDING_NOWAIT and the single call completes: all of them agree if and only if none was added.
   */
  lemma {:induction false} BatchesAsSingles(states: seq<Batched>, acts: seq<Act>) returns (worlds: seq<World>)
    requires Program(states, acts) && states[0].queue == []
    ensures OneAtATime(worlds, Calls(acts)) && worlds[0] == states[0].w
    ensures BothWays(states[0].w.reqs, states[|acts|], worlds[|Calls(acts)|], Signalled(states[0].w.reqs, acts))
  {
    var n := |acts|;
    if n == 0 {
      worlds := [states[0].w];
    } else {
      var init, a := acts[..n - 1], acts[n - 1];
      ProgramInit(states, acts);
      SignalledNext(states[0].w.reqs, acts);
      worlds := BatchesAsSingles(states[..n], init);
      assert CanAct(states[n - 1], a);
      worlds := NextBothWays(states[0].w.reqs, states[n - 1], a, worlds, Calls(init), Signalled(states[0].w.reqs, init));
    }
  }

  // ---- what a program puts on the stream ---------------------------------------------------------------------

  /**
    Everything the calls put on the stream, in call order: one send for a post, one completion wait for
    a wait on a request, and the value wait or write with the caller's operands.
   */
  lemma {:induction false} StreamCarries(worlds: seq<World>, calls: seq<Call>)
    requires OneAtATime(worlds, calls)
    ensures var start, stream := worlds[0].stream, worlds[|calls|].stream;
      && |stream| == |start| + |calls| && stream[..|start|] == start
      && forall i {:trigger calls[i]} :: 0 <= i < |calls| ==>
           && (forall id :: calls[i] == PostSend(id) ==> stream[|start| + i] == Send(id))
           && (forall id :: calls[i] == WaitSend(id) || calls[i] == WaitRecv(id) ==> stream[|start| + i] == WaitCq(id))
           && (forall p, v, cond :: calls[i] == WaitWord(p, v, cond) ==> stream[|start| + i] == WaitValue(p, v, cond))
           && (forall p, v :: calls[i] == WriteWord(p, v) ==> stream[|start| + i] == WriteValue(p, v))
  {
    var n := |calls|;
    if n > 0 {
      var c := calls[n - 1];
      var ws, cs := worlds[..n], calls[..n - 1];
      forall i {:trigger cs[i]} | 0 <= i < |cs| ensures Ready(ws[i].reqs, cs[i]) && ws[i + 1] == Direct(ws[i], cs[i]) {
        assert cs[i] == calls[i];
      }
      StreamCarries(ws, cs);
      assert Ready(worlds[n - 1].reqs, c) && worlds[n] == Direct(worlds[n - 1], c);
      assert forall i :: 0 <= i < n - 1 ==> cs[i] == calls[i];
    }
  }

  /** What has reached the stream or waits in the queue. */
  function Produced(b: Batched): (ds: seq<Desc>) { b.w.stream + b.queue }

  /** An add counts once, and produces its descriptor; a post counts nothing and produces nothing. */
  lemma DoCounts(b: Batched, a: Act, acts: seq<Act>)
    requires CanAct(b, a) && acts != [] && a == acts[|acts| - 1]
    ensures multiset(Produced(Do(b, a))) ==
            multiset(Produced(b)) + if a.Add? then multiset{DescOf(a.call)} else multiset{}
    ensures multiset(acts) == multiset(acts[..|acts| - 1]) + multiset{a}
  {
    assert acts == acts[..|acts| - 1] + [a];
    if a.Add? {
      assert b.w.stream + (b.queue + [DescOf(a.call)]) == Produced(b) + [DescOf(a.call)];
    } else {
      assert Produced(b) + [] == Produced(b);
    }
  }

  lemma RequestCountsNext(b: Batched, a: Act, acts: seq<Act>, id: nat)
    requires CanAct(b, a) && acts != [] && a == acts[|acts| - 1]
    ensures var init := acts[..|acts| - 1];
      multiset(Produced(Do(b, a)))[Send(id)] + multiset(init)[Add(PostSend(id))] ==
      multiset(Produced(b))[Send(id)] + multiset(acts)[Add(PostSend(id))]
    ensures var init := acts[..|acts| - 1];
      multiset(Produced(Do(b, a)))[WaitCq(id)] + multiset(init)[Add(WaitSend(id))] + multiset(init)[Add(WaitRecv(id))] ==
      multiset(Produced(b))[WaitCq(id)] + multiset(acts)[Add(WaitSend(id))] + multiset(acts)[Add(WaitRecv(id))]
  {
    DoCounts(b, a, acts);
  }

  /**
    Whatever is added and posted when, one send of a request is produced for each post of it, and one
    completion wait for each wait on it.
   */
  lemma {:induction false} RequestCounts(states: seq<Batched>, acts: seq<Act>, id: nat)
    requires Program(states, acts)
    ensures multiset(Produced(states[|acts|]))[Send(id)] ==
            multiset(Produced(states[0]))[Send(id)] + multiset(acts)[Add(PostSend(id))]
    ensures multiset(Produced(states[|acts|]))[WaitCq(id)] ==
            multiset(Produced(states[0]))[WaitCq(id)] + multiset(acts)[Add(WaitSend(id))] + multiset(acts)[Add(WaitRecv(id))]
  {
    var n := |acts|;
    if n == 0 {
      assert acts == [];
    } else {
      var init, a := acts[..n - 1], acts[n - 1];
      ProgramInit(states, acts);
      RequestCounts(states[..n], init, id);
      assert CanAct(states[n - 1], a) && states[n] == Do(states[n - 1], a);
      RequestCountsNext(states[n - 1], a, acts, id);
    }
  }

  lemma WaitCountsNext(b: Batched, a: Act, acts: seq<Act>, ptr: nat, value: nat, cond: int)
    requires CanAct(b, a) && acts != [] && a == acts[|acts| - 1]
    ensures var init := acts[..|acts| - 1];
      multiset(Produced(Do(b, a)))[WaitValue(ptr, value, cond)] + multiset(init)[Add(WaitWord(ptr, value, cond))] ==
      multiset(Produced(b))[WaitValue(ptr, value, cond)] + multiset(acts)[Add(WaitWord(ptr, value, cond))]
  {
    DoCounts(b, a, acts);
  }

  lemma WriteCountsNext(b: Batched, a: Act, acts: seq<Act>, ptr: nat, value: nat)
    requires CanAct(b, a) && acts != [] && a == acts[|acts| - 1]
    ensures var init := acts[..|acts| - 1];
      multiset(Produced(Do(b, a)))[WriteValue(ptr, value)] + multiset(init)[Add(WriteWord(ptr, value))] ==
      multiset(Produced(b))[WriteValue(ptr, value)] + multiset(acts)[Add(WriteWord(ptr, value))]
  {
    DoCounts(b, a, acts);
  }

  /** And one value wait or write for each one added, with the operands it was added with. */
  lemma {:induction false} WordCounts(states: seq<Batched>, acts: seq<Act>, ptr: nat, value: nat, cond: int)
    requires Program(states, acts)
    ensures multiset(Produced(states[|acts|]))[WaitValue(ptr, value, cond)] ==
            multiset(Produced(states[0]))[WaitValue(ptr, value, cond)] + multiset(acts)[Add(WaitWord(ptr, value, cond))]
    ensures multiset(Produced(states[|acts|]))[WriteValue(ptr, value)] ==
            multiset(Produced(states[0]))[WriteValue(ptr, value)] + multiset(acts)[Add(WriteWord(ptr, value))]
  {
    var n := |acts|;
    if n == 0 {
      assert acts == [];
    } else {
      var init, a := acts[..n - 1], acts[n - 1];
      ProgramInit(states, acts);
      WordCounts(states[..n], init, ptr, value, cond);
      assert CanAct(states[n - 1], a) && states[n] == Do(states[n - 1], a);
      WaitCountsNext(states[n - 1], a, acts, ptr, value, cond);
      WriteCountsNext(states[n - 1], a, acts, ptr, value);
    }
  }

  /** The act is a call on request id. */
  predicate Names(a: Act, id: nat) { a.Add? && OnRequest(a.call) && a.call.id == id }

  /** After a call on a request: a wait leaves it PENDING for good, a post leaves it to be waited for once. */
  lemma {:induction false} Settles(states: seq<Batched>, acts: seq<Act>, i: nat, k: nat, id: nat)
    requires Program(states, acts) && i < k <= |acts| && Names(acts[i], id)
    ensures id in states[k].w.reqs
    ensures var st := states[k].w.reqs[id].status; st == Pending || (st == PendingNowait && acts[i].call.PostSend?)
  {
    var a := acts[k - 1];
    assert CanAct(states[k - 1], a) && states[k] == Do(states[k - 1], a);
    if i < k - 1 { Settles(states, acts, i, k - 1, id); }
  }

  /** Of two calls on one request the first posts it and the second waits for it: nothing is sent or waited for twice. */
  lemma OncePerRequest(states: seq<Batched>, acts: seq<Act>, i: nat, j: nat, id: nat)
    requires Program(states, acts) && i < j < |acts| && Names(acts[i], id) && Names(acts[j], id)
    ensures acts[i].call.PostSend? && !acts[j].call.PostSend?
  {
    Settles(states, acts, i, j, id);
    assert CanAct(states[j], acts[j]);
  }

  /** A wait on a request that was PREPARED when the program began comes after its post. */
  lemma {:induction false} WaitsAfterPost(states: seq<Batched>, acts: seq<Act>, j: nat, id: nat)
    requires Program(states, acts) && j < |acts| && Names(acts[j], id) && !acts[j].call.PostSend?
    requires id in states[0].w.reqs && states[0].w.reqs[id].status == Status.Prepared
    ensures exists i :: 0 <= i < j && acts[i] == Add(PostSend(id))
  {
    assert CanAct(states[j], acts[j]);
    var k := 0;
    while k < j && !Names(acts[k], id)
      invariant k <= j && id in states[k].w.reqs && states[k].w.reqs[id].status == Status.Prepared
    {
      assert CanAct(states[k], acts[k]) && states[k + 1] == Do(states[k], acts[k]);
      k := k + 1;
    }
    if k < j {
      assert CanAct(states[k], acts[k]);
    }
  }

  // ---- the queue and the records as the code keeps them -----------------------------------------------------

  function RecOf(r: MpRequest): (v: Rec)
    reads r`kind, r`nowait, r`status
  {
    Rec(r.kind, r.nowait, r.status)
  }

  class Stream {
    var cmds: seq<Desc>

    constructor ()
      ensures cmds == []
    {
      cmds := [];
    }
  }

  /** mp_isend_post_on_stream. */
  method IsendPostOnStream(stream: Stream, req: MpRequest)
    requires Accepts(RecOf(req), PostSend(req.id)) && req.kind.SendReq?
    modifies stream, req`status
    ensures stream.cmds == old(stream.cmds) + [Send(req.id)] && req.status == PendingNowait
    ensures DescOf(PostSend(req.id)) == Send(req.id) && req.status == DirectStatus(old(RecOf(req)), PostSend(req.id))
  {
    req.status := PendingNowait;
    stream.cmds := stream.cmds + [Send(req.id)];
  }

  /** mp_iput_post_on_stream: an unsignalled put is complete at once. */
  method IputPostOnStream(stream: Stream, req: MpRequest)
    requires Accepts(RecOf(req), PostSend(req.id)) && req.kind.RdmaReq?
    modifies stream, req`status
    ensures stream.cmds == old(stream.cmds) + [Send(req.id)]
    ensures req.status == if req.nowait then Status.Complete else PendingNowait
    ensures DescOf(PostSend(req.id)) == Send(req.id) && req.status == DirectStatus(old(RecOf(req)), PostSend(req.id))
  {
    stream.cmds := stream.cmds + [Send(req.id)];
    if req.nowait {
      req.status := Status.Complete;
    } else {
      req.status := PendingNowait;
    }
  }

  /** mp_wait_on_stream outside event mode. */
  method WaitOnStream(stream: Stream, req: MpRequest) returns (ret: int)
    requires CanBeWaited(req) ==> req.status == PendingNowait || req.status == Status.Complete
    modifies stream, req`status
    ensures !CanBeWaited(req) ==> ret == 22 && stream.cmds == old(stream.cmds) && req.status == old(req.status)
    ensures CanBeWaited(req) ==>
      ret == 0 && req.status == Pending && stream.cmds == old(stream.cmds) + [WaitCq(req.id)]
    ensures CanBeWaited(req) ==> var c := if IsTx(req.kind) then WaitSend(req.id) else WaitRecv(req.id);
      DescOf(c) == WaitCq(req.id) && req.status == DirectStatus(old(RecOf(req)), c)
  {
    if !CanBeWaited(req) {
      return 22;
    }
    req.status := Pending;
    stream.cmds := stream.cmds + [WaitCq(req.id)];
    ret := 0;
  }

  class Queue {
    var descs: seq<Desc>

    constructor ()
      ensures descs == []
    {
      descs := [];
    }

    method Push(d: Desc)
      modifies this
      ensures descs == old(descs) + [d]
    {
      descs := descs + [d];
    }

    /** mp_desc_queue_add_send */
    method AddSend(req: MpRequest)
      requires Accepts(RecOf(req), PostSend(req.id))
      modifies this, req`status
      ensures descs == old(descs) + [Send(req.id)] && req.status == PendingNowait
      ensures DescOf(PostSend(req.id)) == Send(req.id) && req.status == QueuedStatus(old(RecOf(req)), PostSend(req.id))
    {
      Push(Send(req.id));
      req.status := PendingNowait;
    }

    /** mp_desc_queue_add_wait_send */
    method AddWaitSend(req: MpRequest)
      requires Accepts(RecOf(req), WaitSend(req.id))
      modifies this, req`status
      ensures descs == old(descs) + [WaitCq(req.id)] && req.status == Pending
      ensures DescOf(WaitSend(req.id)) == WaitCq(req.id) && req.status == QueuedStatus(old(RecOf(req)), WaitSend(req.id))
    {
      Push(WaitCq(req.id));
      req.status := Pending;
    }

    /** mp_desc_queue_add_wait_recv */
    method AddWaitRecv(req: MpRequest)
      requires Accepts(RecOf(req), WaitRecv(req.id))
      modifies this, req`status
      ensures descs == old(descs) + [WaitCq(req.id)] && req.status == Pending
      ensures DescOf(WaitRecv(req.id)) == WaitCq(req.id) && req.status == QueuedStatus(old(RecOf(req)), WaitRecv(req.id))
    {
      Push(WaitCq(req.id));
      req.status := Pending;
    }

    /** mp_desc_queue_add_wait_value32 */
    method AddWaitValue(ptr: nat, value: nat, cond: int)
      modifies this
      ensures descs == old(descs) + [WaitValue(ptr, value, cond)]
      ensures DescOf(WaitWord(ptr, value, cond)) == WaitValue(ptr, value, cond)
    {
      Push(WaitValue(ptr, value, cond));
    }

    /** mp_desc_queue_add_write_value32 */
    method AddWriteValue(ptr: nat, value: nat)
      modifies this
      ensures descs == old(descs) + [WriteValue(ptr, value)]
      ensures DescOf(WriteWord(ptr, value)) == WriteValue(ptr, value)
    {
      Push(WriteValue(ptr, value));
    }

    /** mp_desc_queue_post_on_stream: everything collected reaches the stream, and the queue is empty. */
    method PostOnStream(stream: Stream)
      modifies this, stream
      ensures descs == [] && stream.cmds == old(stream.cmds) + old(descs)
    {
      if |descs| > 0 {
        stream.cmds := stream.cmds + descs;
        descs := [];
      }
    }
  }
}
