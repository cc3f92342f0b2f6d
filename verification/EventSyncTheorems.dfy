/** What the event-sync protocol guarantees over whole runs. */
module EventSyncTheorems {
  import opened EventSync
  import opened EventSyncInvariant

  // ---- what a run never takes back ---------------------------------------------------------------

  ghost predicate LaneExtends(l: Lane, m: Lane) { l.polled <= m.polled && Line(l) <= Line(m) }

  ghost predicate Extends(s: State, t: State) {
    && s.issued <= t.issued
    && s.executed <= t.executed
    && LaneExtends(s.tx, t.tx)
    && LaneExtends(s.rx, t.rx)
    && t.rx.posted == s.rx.posted
  }

  lemma LanePostLine(l: Lane)
    requires l.posted != []
    ensures Line(LanePost(l)) == Line(l)
  {
    var x, rest := l.posted[0], l.posted[1..];
    assert l.posted == [x] + rest;
    assert Line(LanePost(l)) == l.polled + l.cq + (l.nic + [x]) + rest;
  }

  lemma LaneCompleteLine(l: Lane)
    requires l.nic != []
    ensures Line(LaneComplete(l)) == Line(l)
  {
    var x, rest := l.nic[0], l.nic[1..];
    assert l.nic == [x] + rest;
    assert Line(LaneComplete(l)) == l.polled + (l.cq + [x]) + rest + l.posted;
  }

  lemma LanePollLine(l: Lane)
    requires l.cq != []
    ensures Line(LanePoll(l)) == Line(l)
  {
    var x, rest := l.cq[0], l.cq[1..];
    assert l.cq == [x] + rest;
    assert Line(LanePoll(l)) == (l.polled + [x]) + rest + l.nic + l.posted;
  }

  /** An engine step queues nothing and accepts nothing. */
  lemma EngineExtends(s: State, e: Step)
    requires Enabled(s, e) && !HostCall(e)
    ensures Extends(s, Apply(s, e))
    ensures Apply(s, e).issued == s.issued
    ensures Line(Apply(s, e).tx) == Line(s.tx) && Line(Apply(s, e).rx) == Line(s.rx)
  {
    match e
    case StreamStep =>
    case NicPost(ok) => if ok { LanePostLine(s.tx); }
    case NicComplete(f) => LaneCompleteLine(LaneOf(s, f));
    case Poll(f) => LanePollLine(LaneOf(s, f));
  }

  lemma AcceptExtends(s: State, id: nat)
    ensures Extends(s, Accept(s, id))
  {
    assert Line(Accept(s, id).tx) == Line(s.tx) + [id];
  }

  lemma TrackExtends(s: State, f: Flow, id: nat)
    ensures Extends(s, TrackWait(s, f, id))
  {
    var t := TrackWait(s, f, id);
    assert Line(t.tx) == Line(s.tx) && Line(t.rx) == Line(s.rx);
  }

  lemma NicExtends(l: Lane, id: nat)
    requires l.posted == []
    ensures LaneExtends(l, l.(nic := l.nic + [id]))
  {
    assert Line(l.(nic := l.nic + [id])) == Line(l) + [id];
  }

  lemma DirectExtends(s: State, id: nat)
    ensures Extends(s, Accept(Fresh(s), id)) && Extends(s, TrackWait(Accept(Fresh(s), id), TX, id))
  {
    AcceptExtends(Fresh(s), id);
    TrackExtends(Accept(Fresh(s), id), TX, id);
    ExtendsTransitive(Fresh(s), Accept(Fresh(s), id), TrackWait(Accept(Fresh(s), id), TX, id));
  }

  lemma PostExtends(s: State, id: nat)
    ensures Extends(s, IsendPostCall(s, id)) && Extends(s, SendPostCall(s, id))
  {
    AcceptExtends(s, id);
    TrackExtends(Accept(s, id), TX, id);
    ExtendsTransitive(s, Accept(s, id), TrackWait(Accept(s, id), TX, id));
  }

  lemma DrawExtends(s: State, e: Step)
    requires Enabled(s, e) && (e.SendPrepare? || e.PutNowait? || e.Irecv? || (e.IsendNow? && s.tx.posted == []))
    requires s.rx.posted == []
    ensures Extends(s, Apply(s, e))
  {
    NicExtends(s.rx, s.lastReqId + 1);
    if e.IsendNow? { NicExtends(s.tx, s.lastReqId + 1); }
  }

  lemma HostExtends(s: State, e: Step)
    requires Enabled(s, e) && HostCall(e) && (e.IsendNow? ==> s.tx.posted == []) && s.rx.posted == []
    ensures Extends(s, Apply(s, e))
  {
    match e
    case IsendOnStream => DirectExtends(s, s.lastReqId + 1);
    case SendOnStream => DirectExtends(s, s.lastReqId + 1);
    case SendPrepare => DrawExtends(s, e);
    case PutNowait => DrawExtends(s, e);
    case Irecv => DrawExtends(s, e);
    case IsendNow => DrawExtends(s, e);
    case IsendPost(id) => PostExtends(s, id);
    case SendPost(id) => PostExtends(s, id);
    case WaitOnStream(f, id) => TrackExtends(s, f, id);
    case Launch(_) =>
  }

  lemma StepExtends(s: State, e: Step, t: State)
    requires Enabled(s, e) && (e.IsendNow? ==> s.tx.posted == []) && t == Apply(s, e) && s.rx.posted == []
    ensures Extends(s, t)
  {
    if HostCall(e) { HostExtends(s, e); } else { EngineExtends(s, e); }
  }

  lemma ExtendsTransitive(s: State, t: State, u: State)
    requires Extends(s, t) && Extends(t, u)
    ensures Extends(s, u)
  {
  }

  lemma {:induction false} TraceExtends(states: seq<State>, steps: seq<Step>, i: nat, k: nat)
    requires Disciplined(states, steps) && i <= k < |states| && states[i].rx.posted == []
    ensures Extends(states[i], states[k])
    decreases k
  {
    if i < k {
      TraceExtends(states, steps, i, k - 1);
      var e := steps[k - 1];
      StepExtends(states[k - 1], e, states[k]);
      ExtendsTransitive(states[i], states[k - 1], states[k]);
    }
  }

  // ---- safety of stream waits, elided or not ---------------------------------------------------------

  /** Calls that order everything queued afterwards behind the completion of request id. */
  predicate WaitsFor(s: State, e: Step, f: Flow, id: nat) {
    || e == WaitOnStream(f, id)
    || (e.SendOnStream? && f.TX? && id == s.lastReqId + 1)
    || (e.SendPost? && f.TX? && id == e.id && s.lastPostedTrigger < id)
  }

  /** Either the request is complete, or a wait at least as strong sits below `limit` on the stream. */
  ghost predicate Fenced(s: State, f: Flow, id: nat, limit: nat) {
    && id in Line(LaneOf(s, f))
    && (id in LaneOf(s, f).polled || exists p, w :: p < limit && id <= w && WaitAt(s, p, f, w))
  }

  lemma TrackFences(s: State, f: Flow, id: nat)
    requires Inv(s) && id in Line(LaneOf(s, f)) && id !in LaneOf(s, f).polled
    ensures var t := TrackWait(s, f, id); Fenced(t, f, id, |t.issued|)
  {
    var l := LaneOf(s, f);
    var t := TrackWait(s, f, id);
    if l.lastPostedTracked < id {
      assert WaitAt(t, |s.issued|, f, id);
      assert Line(LaneOf(t, f)) == Line(l);
    } else {
      var p :| WaitAt(s, p, f, l.lastPostedTracked);
      assert p < |t.issued| && id <= l.lastPostedTracked && WaitAt(t, p, f, l.lastPostedTracked);
    }
  }

  lemma AcceptFences(s: State, id: nat)
    requires Inv(s)
    requires 1 <= id <= s.lastReqId && Above(id, Line(s.tx)) && s.lastPostedTrigger < id
    ensures var t := TrackWait(Accept(s, id), TX, id); Fenced(t, TX, id, |t.issued|)
  {
    AcceptKeeps(s, id);
    TrackFences(Accept(s, id), TX, id);
  }

  lemma DirectFences(s: State, id: nat)
    requires Inv(s) && id == s.lastReqId + 1
    ensures var t := TrackWait(Accept(Fresh(s), id), TX, id); Fenced(t, TX, id, |t.issued|)
  {
    FreshKeeps(s);
    AcceptFences(Fresh(s), id);
  }

  lemma SendFences(s: State)
    requires Inv(s) && Enabled(s, SendOnStream)
    ensures var t := Apply(s, SendOnStream); Fenced(t, TX, s.lastReqId + 1, |t.issued|)
  {
    SendIs(s);
    DirectFences(s, s.lastReqId + 1);
  }

  lemma SendPostFences(s: State, id: nat)
    requires Inv(s) && Enabled(s, SendPost(id)) && KeepsOrder(s, SendPost(id)) && s.lastPostedTrigger < id
    ensures var t := Apply(s, SendPost(id)); Fenced(t, TX, id, |t.issued|)
  {
    PostedIdRange(s, id);
    AcceptFences(s, id);
  }

  lemma CallFences(s: State, e: Step, f: Flow, id: nat)
    requires Inv(s) && Enabled(s, e) && Permitted(s, e) && WaitsFor(s, e, f, id)
    ensures var t := Apply(s, e); Fenced(t, f, id, |t.issued|)
  {
    if e.WaitOnStream? {
      if id !in LaneOf(s, f).polled { TrackFences(s, f, id); }
    } else if e.SendOnStream? {
      SendFences(s);
    } else {
      SendPostFences(s, id);
    }
  }

  lemma PostedIdRange(s: State, id: nat)
    requires Inv(s) && (id in s.prepared || id in s.tx.posted)
    ensures 1 <= id <= s.lastReqId
  {
    assert forall x :: x in s.tx.posted ==> x in Line(s.tx);
  }

  lemma FencedExtends(s: State, t: State, f: Flow, id: nat, limit: nat)
    requires Fenced(s, f, id, limit) && Extends(s, t)
    ensures Fenced(t, f, id, limit)
  {
    if id in LaneOf(s, f).polled {
      assert id in LaneOf(t, f).polled;
    } else {
      var p, w :| p < limit && id <= w && WaitAt(s, p, f, w);
      assert WaitAt(t, p, f, w);
    }
  }

  /** last_tracked_id >= w means every accepted request up to w has been polled. */
  lemma TrackedCoversBelow(s: State, f: Flow, id: nat, w: nat)
    requires Inv(s) && id in Line(LaneOf(s, f)) && id <= w <= LaneOf(s, f).lastTracked
    ensures id in LaneOf(s, f).polled
  {
    var l := LaneOf(s, f);
    assert LaneOk(l, s.lastReqId);
    PolledDownward(l, id, l.lastTracked);
  }

  /** What a waiting call put in place stays in place. */
  lemma StaysFenced(states: seq<State>, steps: seq<Step>, i: nat, k: nat, f: Flow, id: nat)
    requires Run(states, steps) && i < |steps| && i < k < |states|
    requires WaitsFor(states[i], steps[i], f, id)
    ensures Fenced(states[k], f, id, |states[i + 1].issued|) && Inv(states[k])
  {
    FencedThere(states, steps, i, f, id);
    RunInv(states, steps, i + 1);
    TraceExtends(states, steps, i + 1, k);
    FencedExtends(states[i + 1], states[k], f, id, |states[i + 1].issued|);
    RunInv(states, steps, k);
  }

  lemma FencedThere(states: seq<State>, steps: seq<Step>, i: nat, f: Flow, id: nat)
    requires Run(states, steps) && i < |steps| && WaitsFor(states[i], steps[i], f, id)
    ensures Fenced(states[i + 1], f, id, |states[i + 1].issued|)
  {
    RunInv(states, steps, i);
    CallFences(states[i], steps[i], f, id);
  }

  /**
    Event-sync safety. After any call that waits for request id, once the stream has run past
    everything that was queued by then -- in particular before it can start any command queued
    later -- the completion of id has been polled. It makes no difference whether the call queued a
    wait or dropped it in favour of one already there.
   */
  lemma WaitSafety(states: seq<State>, steps: seq<Step>, i: nat, k: nat, f: Flow, id: nat)
    requires Run(states, steps) && i < |steps| && i < k < |states|
    requires WaitsFor(states[i], steps[i], f, id)
    requires |states[i + 1].issued| <= states[k].executed
    ensures id in LaneOf(states[k], f).polled
  {
    var limit := |states[i + 1].issued|;
    StaysFenced(states, steps, i, k, f, id);
    if id !in LaneOf(states[k], f).polled {
      var p, w :| p < limit && id <= w && WaitAt(states[k], p, f, w);
      TrackedCoversBelow(states[k], f, id, w);
    }
  }

  // ---- eliding waits lets exactly the same commands run ------------------------------------------------

  /** The stream as queued: some wait in front of position c is not satisfied yet. */
  ghost predicate HeldBack(s: State, c: nat) {
    exists p, f, w :: p < c && WaitAt(s, p, f, w) && LaneOf(s, f).lastTracked < w
  }

  ghost predicate WaitedAndOpen(states: seq<State>, steps: seq<Step>, n: nat, c: nat, i: nat, f: Flow, id: nat)
    requires Trace(states, steps) && n < |states|
  {
    && i < n && WaitsFor(states[i], steps[i], f, id)
    && |states[i + 1].issued| <= c && id !in LaneOf(states[n], f).polled
  }

  /** The simple policy: some request waited for before command c was queued is not complete. */
  ghost predicate SimplyHeldBack(states: seq<State>, steps: seq<Step>, n: nat, c: nat)
    requires Trace(states, steps) && n < |states|
  {
    exists i: nat, f: Flow, id: nat :: WaitedAndOpen(states, steps, n, c, i, f, id)
  }

  lemma IssuedGrows(s: State, e: Step)
    requires Enabled(s, e)
    ensures s.issued <= Apply(s, e).issued
  {
  }

  lemma NewWaitCaller(s: State, e: Step, p: int, f: Flow, w: nat)
    requires Enabled(s, e) && WaitAt(Apply(s, e), p, f, w) && |s.issued| <= p
    ensures WaitsFor(s, e, f, w) && |Apply(s, e).issued| == p + 1
  {
  }

  /** A wait found on the stream was put there by a call that waits for exactly that id. */
  lemma {:induction false} WaitHasCaller(states: seq<State>, steps: seq<Step>, n: nat, p: int, f: Flow, w: nat)
    returns (i: nat)
    requires Run(states, steps) && n < |states| && WaitAt(states[n], p, f, w)
    ensures i < n && WaitsFor(states[i], steps[i], f, w) && |states[i + 1].issued| == p + 1
  {
    if n == 0 { assert false; }
    var s, e := states[n - 1], steps[n - 1];
    if p < |s.issued| {
      IssuedGrows(s, e);
      i := WaitHasCaller(states, steps, n - 1, p, f, w);
    } else {
      NewWaitCaller(s, e, p, f, w);
      i := n - 1;
    }
  }

  lemma HeldImpliesSimplyHeld(states: seq<State>, steps: seq<Step>, n: nat, c: nat)
    requires Run(states, steps) && n < |states| && HeldBack(states[n], c)
    ensures SimplyHeldBack(states, steps, n, c)
  {
    var s := states[n];
    RunInv(states, steps, n);
    var p, f, w :| p < c && WaitAt(s, p, f, w) && LaneOf(s, f).lastTracked < w;
    var i := WaitHasCaller(states, steps, n, p, f, w);
    assert LaneOk(LaneOf(s, f), s.lastReqId);
    assert w !in LaneOf(s, f).polled;
    assert WaitedAndOpen(states, steps, n, c, i, f, w);
  }

  lemma SimplyHeldImpliesHeld(states: seq<State>, steps: seq<Step>, n: nat, c: nat)
    requires Run(states, steps) && n < |states| && SimplyHeldBack(states, steps, n, c)
    ensures HeldBack(states[n], c)
  {
    var s := states[n];
    var i: nat, f: Flow, id: nat :| WaitedAndOpen(states, steps, n, c, i, f, id);
    var limit := |states[i + 1].issued|;
    StaysFenced(states, steps, i, n, f, id);
    var p, w :| p < limit && id <= w && WaitAt(s, p, f, w);
    if w <= LaneOf(s, f).lastTracked { TrackedCoversBelow(s, f, id, w); }
  }

  /**
    Wait elision refines the simple policy: in every state of every run, the queued waits hold a
    command back exactly when a policy waiting on every request named so far would.
   */
  lemma ElisionExact(states: seq<State>, steps: seq<Step>, n: nat, c: nat)
    requires Run(states, steps) && n < |states|
    ensures HeldBack(states[n], c) <==> SimplyHeldBack(states, steps, n, c)
  {
    if HeldBack(states[n], c) { HeldImpliesSimplyHeld(states, steps, n, c); }
    if SimplyHeldBack(states, steps, n, c) { SimplyHeldImpliesHeld(states, steps, n, c); }
  }

  // ---- deferred sends are never early ---------------------------------------------------------------------

  /**
    Ids reach the NIC in strictly increasing order, hence at most once, and a send that was ever on
    the posted list reaches it only after the stream executed its trigger write; failed and retried
    hand-overs included.
   */
  lemma NeverEarly(states: seq<State>, steps: seq<Step>, i: nat, k: nat, x: nat)
    requires Run(states, steps) && i <= k < |states|
    ensures Increasing(Handed(states[k].tx))
    ensures x in states[i].tx.posted && x in Handed(states[k].tx) ==>
              exists q :: q < states[k].executed && TriggerAt(states[k], q, x)
  {
    RunInv(states, steps, k);
    var l := states[k].tx;
    assert forall j :: 0 <= j < |Handed(l)| ==> Handed(l)[j] == Line(l)[j];
    if x in states[i].tx.posted && x in Handed(l) {
      RunInv(states, steps, i);
      TraceExtends(states, steps, i, k);
      var q :| TriggerAt(states[i], q, x);
      assert TriggerAt(states[k], q, x);
    }
  }

  /** The tracked-id assertion of the progress engine never fails. */
  lemma NeverFaults(states: seq<State>, steps: seq<Step>, k: nat)
    requires Run(states, steps) && k < |states|
    ensures !states[k].fault
  {
    RunInv(states, steps, k);
  }

  // ---- the counter chain ------------------------------------------------------------------------------------

  /** Every id on the TX line came through a deferred call. */
  ghost predicate DeferredOnly(s: State) {
    forall x :: x in Line(s.tx) ==> exists q :: TriggerAt(s, q, x)
  }

  lemma AcceptDeferred(s: State, id: nat)
    requires DeferredOnly(s)
    ensures DeferredOnly(Accept(s, id))
  {
    var t := Accept(s, id);
    QueueAt(s, t, Trigger(id));
    assert Line(t.tx) == Line(s.tx) + [id];
    assert TriggerAt(t, |s.issued|, id);
  }

  lemma TrackDeferred(s: State, f: Flow, id: nat)
    requires DeferredOnly(s)
    ensures DeferredOnly(TrackWait(s, f, id))
  {
    var t := TrackWait(s, f, id);
    if t != s { QueueAt(s, t, WaitTracked(f, id)); }
    assert Line(t.tx) == Line(s.tx);
  }

  lemma FreshDeferred(s: State)
    requires DeferredOnly(s)
    ensures DeferredOnly(Fresh(s))
  {
    assert forall q, x :: TriggerAt(s, q, x) ==> TriggerAt(Fresh(s), q, x);
  }

  lemma HostDeferred(s: State, e: Step)
    requires DeferredOnly(s) && Enabled(s, e) && HostCall(e) && !e.IsendNow?
    ensures DeferredOnly(Apply(s, e))
  {
    FreshDeferred(s);
    var t := Apply(s, e);
    match e
    case IsendOnStream => AcceptDeferred(Fresh(s), s.lastReqId + 1);
    case SendOnStream =>
      AcceptDeferred(Fresh(s), s.lastReqId + 1);
      TrackDeferred(Accept(Fresh(s), s.lastReqId + 1), TX, s.lastReqId + 1);
    case IsendPost(id) => AcceptDeferred(s, id);
    case SendPost(id) =>
      AcceptDeferred(s, id);
      TrackDeferred(Accept(s, id), TX, id);
    case WaitOnStream(f, id) => TrackDeferred(s, f, id);
    case Launch(tag) => QueueAt(s, t, Kernel(tag));
    case SendPrepare =>
      assert forall q, x :: TriggerAt(s, q, x) ==> TriggerAt(t, q, x);
    case PutNowait =>
    case Irecv =>
      assert forall q, x :: TriggerAt(s, q, x) ==> TriggerAt(t, q, x);
  }

  lemma StepDeferred(s: State, e: Step)
    requires DeferredOnly(s) && Enabled(s, e) && !e.IsendNow?
    ensures DeferredOnly(Apply(s, e))
  {
    if HostCall(e) {
      HostDeferred(s, e);
    } else {
      EngineExtends(s, e);
      assert forall q, x :: TriggerAt(s, q, x) ==> TriggerAt(Apply(s, e), q, x);
    }
  }

  lemma {:induction false} RunDeferred(states: seq<State>, steps: seq<Step>, k: nat)
    requires Trace(states, steps) && states[0] == INIT && k < |states|
    requires forall i :: 0 <= i < |steps| ==> !steps[i].IsendNow?
    ensures DeferredOnly(states[k])
  {
    if k > 0 {
      RunDeferred(states, steps, k - 1);
      StepDeferred(states[k - 1], steps[k - 1]);
    }
  }

  lemma ChainHere(s: State)
    requires Inv(s) && DeferredOnly(s)
    ensures s.tx.lastTracked <= s.tx.lastPostedTracked <= s.lastPostedTrigger <= s.lastReqId
    ensures s.tx.lastTracked <= s.lastTrigger <= s.lastPostedTrigger
    ensures forall id :: id > s.lastPostedTrigger ==> Above(id, Line(s.tx))
  {
    var l := s.tx;
    forall x | x in Line(l) ensures x <= s.lastPostedTrigger {
      var q :| TriggerAt(s, q, x);
    }
    if l.lastTracked != 0 {
      assert l.lastTracked in Handed(l) && l.lastTracked in Line(l);
      var q :| TriggerAt(s, q, l.lastTracked);
      assert q < s.executed;
    }
    if s.lastTrigger != 0 {
      var q :| q < s.executed && TriggerAt(s, q, s.lastTrigger);
    }
  }

  /** With deferred sends only, the five counters of the TX flow stay chained in every state. */
  lemma CounterChain(states: seq<State>, steps: seq<Step>, k: nat)
    requires Run(states, steps) && k < |states|
    requires forall i :: 0 <= i < |steps| ==> !steps[i].IsendNow?
    ensures var s := states[k];
      && s.tx.lastTracked <= s.tx.lastPostedTracked <= s.lastPostedTrigger <= s.lastReqId
      && s.tx.lastTracked <= s.lastTrigger <= s.lastPostedTrigger
  {
    RunInv(states, steps, k);
    RunDeferred(states, steps, k);
    ChainHere(states[k]);
  }

  // ---- no deadlock ------------------------------------------------------------------------------------------

  function LaneWork(l: Lane): (n: nat) { 3 * |l.posted| + 2 * |l.nic| + |l.cq| }

  /** Work left for the stream, the NIC and the progress engine. */
  function Work(s: State): (n: nat)
    requires s.executed <= |s.issued|
  {
    |s.issued| - s.executed + LaneWork(s.tx) + LaneWork(s.rx)
  }

  /** Steps of the machine itself; a failed hand-over is not progress. */
  predicate EngineStep(e: Step) { !HostCall(e) && e != NicPost(false) }

  lemma EngineDecreases(s: State, e: Step)
    requires Enabled(s, e) && EngineStep(e) && s.executed <= |s.issued|
    ensures Apply(s, e).executed <= |Apply(s, e).issued| && Work(Apply(s, e)) < Work(s)
  {
  }

  /** A request still on the posted list whose trigger has run lets the engine hand one over. */
  lemma TriggeredCanPost(s: State, w: nat)
    requires Inv(s) && w in s.tx.posted && w <= s.lastTrigger
    ensures Enabled(s, NicPost(true))
  {
    var l := s.tx;
    var i :| 0 <= i < |l.posted| && l.posted[i] == w;
    var b := |Handed(l)|;
    assert Line(l)[b] == l.posted[0] && Line(l)[b + i] == w;
  }

  lemma AwaitedIsOpen(s: State)
    requires Inv(s) && s.executed < |s.issued| && Blocked(s, s.issued[s.executed])
    ensures var c := s.issued[s.executed];
            var l := LaneOf(s, c.flow);
            c.id in Line(l) && c.id !in l.polled
  {
    var f, w := s.issued[s.executed].flow, s.issued[s.executed].id;
    assert WaitAt(s, s.executed, f, w);
    assert LaneOk(LaneOf(s, f), s.lastReqId);
  }

  lemma AwaitedWasTriggered(s: State)
    requires Inv(s) && s.executed < |s.issued| && s.issued[s.executed].WaitTracked?
    requires s.issued[s.executed].flow == TX && s.issued[s.executed].id in s.tx.posted
    ensures s.issued[s.executed].id <= s.lastTrigger
  {
    var w := s.issued[s.executed].id;
    assert WaitAt(s, s.executed, TX, w);
    var q :| TriggerAt(s, q, w);
    assert q < s.executed;
  }

  /** Blocked on a wait, the awaited request is on its way and some engine step moves the flow. */
  lemma BlockedCanMove(s: State)
    requires Inv(s) && s.executed < |s.issued| && Blocked(s, s.issued[s.executed])
    ensures var f := s.issued[s.executed].flow;
            Enabled(s, Poll(f)) || Enabled(s, NicComplete(f)) || (f.TX? && Enabled(s, NicPost(true)))
  {
    AwaitedIsOpen(s);
    var f, w := s.issued[s.executed].flow, s.issued[s.executed].id;
    var l := LaneOf(s, f);
    if l.nic == [] && l.cq == [] {
      assert w in l.posted;
      AwaitedWasTriggered(s);
      TriggeredCanPost(s, w);
    }
  }

  /**
    No deadlock on the TX flow: whenever the stream of a run sits at an unsatisfied TX wait, the
    progress engine can hand over, the NIC can complete or a completion can be polled on that flow.
   */
  lemma NoTxDeadlock(states: seq<State>, steps: seq<Step>, k: nat)
    requires Run(states, steps) && k < |states|
    requires var s := states[k];
      s.executed < |s.issued| && Blocked(s, s.issued[s.executed]) && s.issued[s.executed].flow == TX
    ensures var s := states[k];
      Enabled(s, NicPost(true)) || Enabled(s, NicComplete(TX)) || Enabled(s, Poll(TX))
  {
    RunInv(states, steps, k);
    BlockedCanMove(states[k]);
  }

  ghost predicate Quiet(s: State) { forall e :: EngineStep(e) ==> !Enabled(s, e) }

  predicate Drained(s: State) {
    && s.executed == |s.issued|
    && s.tx.posted == s.tx.nic == s.tx.cq == []
    && s.rx.posted == s.rx.nic == s.rx.cq == []
  }

  lemma QuietMeans(s: State)
    requires Quiet(s)
    ensures !Enabled(s, NicPost(true)) && !Enabled(s, StreamStep)
    ensures s.tx.nic == s.tx.cq == s.rx.nic == s.rx.cq == []
  {
    assert !Enabled(s, NicComplete(TX)) && !Enabled(s, NicComplete(RX));
    assert !Enabled(s, Poll(TX)) && !Enabled(s, Poll(RX));
  }

  /** Once the stream has run dry, the head of the posted list can be handed over. */
  lemma DryStreamCanPost(s: State)
    requires Inv(s) && s.executed == |s.issued| && s.tx.posted != []
    ensures Enabled(s, NicPost(true))
  {
    assert s.tx.posted[0] in s.tx.posted;
    var q :| TriggerAt(s, q, s.tx.posted[0]);
  }

  /** When nothing more can happen by itself, nothing is left: every send and wait went through. */
  lemma QuietIsDrained(s: State)
    requires Inv(s) && Quiet(s)
    ensures Drained(s)
  {
    QuietMeans(s);
    if s.executed < |s.issued| { BlockedCanMove(s); }
    if s.tx.posted != [] { DryStreamCanPost(s); }
  }

  lemma Advance(s: State) returns (e: Step, t: State)
    requires Inv(s) && !Quiet(s)
    ensures EngineStep(e) && Enabled(s, e) && Permitted(s, e) && t == Apply(s, e)
    ensures Inv(t) && Work(t) < Work(s)
  {
    e :| EngineStep(e) && Enabled(s, e);
    t := Apply(s, e);
    EngineKeeps(s, e);
    EngineDecreases(s, e);
  }

  lemma ConsTrace(s: State, e: Step, states: seq<State>, steps: seq<Step>)
    requires Enabled(s, e) && Permitted(s, e) && Disciplined(states, steps) && states[0] == Apply(s, e)
    ensures Disciplined([s] + states, [e] + steps)
    ensures ([s] + states)[|steps| + 1] == states[|steps|]
  {
    var ss, es := [s] + states, [e] + steps;
    forall i | 0 <= i < |es|
      ensures Enabled(ss[i], es[i]) && ss[i + 1] == Apply(ss[i], es[i]) && Permitted(ss[i], es[i])
    {
      if i > 0 {
        assert ss[i] == states[i - 1] && es[i] == steps[i - 1] && ss[i + 1] == states[i];
      }
    }
  }

  /** A run of engine steps that takes no more steps than there was work. */
  ghost predicate Settles(s: State, states: seq<State>, steps: seq<Step>) {
    && Disciplined(states, steps) && states[0] == s && s.executed <= |s.issued|
    && (forall i :: 0 <= i < |steps| ==> EngineStep(steps[i]))
    && |steps| <= Work(s)
  }

  lemma SettlesHere(s: State)
    requires s.executed <= |s.issued|
    ensures Settles(s, [s], [])
  {
  }

  lemma SettlesAfter(s: State, e: Step, t: State, states: seq<State>, steps: seq<Step>)
    requires EngineStep(e) && Enabled(s, e) && Permitted(s, e) && t == Apply(s, e)
    requires Settles(t, states, steps) && s.executed <= |s.issued| && Work(t) < Work(s)
    ensures Settles(s, [s] + states, [e] + steps) && ([s] + states)[|steps| + 1] == states[|steps|]
  {
    ConsTrace(s, e, states, steps);
  }

  /** The engine steps alone bring any reachable state to rest, within Work(s) steps. */
  lemma {:induction false} Drain(s: State) returns (states: seq<State>, steps: seq<Step>)
    requires Inv(s)
    ensures Settles(s, states, steps) && Drained(states[|steps|])
    decreases Work(s)
  {
    if Quiet(s) {
      QuietIsDrained(s);
      SettlesHere(s);
      states, steps := [s], [];
    } else {
      var e, t := Advance(s);
      var rest, more := Drain(t);
      SettlesAfter(s, e, t, rest, more);
      states, steps := [s] + rest, [e] + more;
    }
  }

  /** However the engine steps are scheduled, they cannot go on for more than Work(s) steps. */
  lemma {:induction false} DrainBound(states: seq<State>, steps: seq<Step>)
    requires Trace(states, steps) && states[0].executed <= |states[0].issued|
    requires forall i :: 0 <= i < |steps| ==> EngineStep(steps[i])
    ensures |steps| <= Work(states[0])
    decreases |steps|
  {
    if steps != [] {
      EngineDecreases(states[0], steps[0]);
      assert forall i :: 0 <= i < |steps[1..]| ==> Enabled(states[1..][i], steps[1..][i]);
      DrainBound(states[1..], steps[1..]);
    }
  }

  // ---- nothing accepted is lost -------------------------------------------------------------------------

  /** The call accepts a request on the flow, as id; a post call does when its id is above the mark. */
  predicate Takes(s: State, e: Step, f: Flow, id: nat) {
    match e
    case IsendOnStream | SendOnStream | IsendNow => f.TX? && id == s.lastReqId + 1
    case IsendPost(x) => f.TX? && id == x && s.lastPostedTrigger < x
    case SendPost(x) => f.TX? && id == x && s.lastPostedTrigger < x
    case Irecv => f.RX? && id == s.lastReqId + 1
    case _ => false
  }

  lemma TakenIsInLine(s: State, e: Step, f: Flow, id: nat)
    requires Enabled(s, e) && Takes(s, e, f, id)
    ensures id in Line(LaneOf(Apply(s, e), f))
    ensures !e.Irecv? && !e.IsendNow? ==> Apply(s, e).issued[|s.issued|..] != [] && Apply(s, e).issued[|s.issued|] == Trigger(id)
    ensures e.SendOnStream? || e.SendPost? ==>
            id <= Apply(s, e).tx.lastPostedTracked
  {
    var t := Apply(s, e);
    if e.Irecv? {
      assert t.rx.nic[|s.rx.nic|] == id;
    } else if e.IsendNow? {
      assert t.tx.nic[|s.tx.nic|] == id;
    } else {
      assert t.tx.posted[|s.tx.posted|] == id;
    }
  }

  /** A sum of queues holds what they hold. */
  lemma LineHolds(l: Lane, id: nat)
    requires l.posted == l.nic == l.cq == [] && id in Line(l)
    ensures id in l.polled
  {
    assert Line(l) == l.polled;
  }

  lemma StaysInLine(s: State, t: State, f: Flow, id: nat)
    requires Extends(s, t) && Inv(t) && id in Line(LaneOf(s, f))
    ensures id in Line(LaneOf(t, f))
    ensures Quiet(t) ==> id in LaneOf(t, f).polled
  {
    var l, m := LaneOf(s, f), LaneOf(t, f);
    var p :| 0 <= p < |Line(l)| && Line(l)[p] == id;
    assert Line(m)[p] == id;
    if Quiet(t) {
      QuietIsDrained(t);
      LineHolds(m, id);
    }
  }

  /**
    A request once accepted is on its flow in one of the four queues ever after; and as soon as nothing
    is left to do it has been polled.
   */
  lemma NothingLost(states: seq<State>, steps: seq<Step>, i: nat, k: nat, f: Flow, id: nat)
    requires Run(states, steps) && i < k < |states| && Takes(states[i], steps[i], f, id)
    ensures id in Line(LaneOf(states[k], f))
    ensures Quiet(states[k]) ==> id in LaneOf(states[k], f).polled
  {
    TakenIsInLine(states[i], steps[i], f, id);
    RunInv(states, steps, i + 1);
    RunInv(states, steps, k);
    TraceExtends(states, steps, i + 1, k);
    StaysInLine(states[i + 1], states[k], f, id);
  }

  // ---- what keeps the order, and what goes wrong without it -------------------------------------------------

  lemma OvertakingUnsorts(s: State)
    requires Inv(s) && s.tx.posted != []
    ensures !Increasing(Line(s.tx.(nic := s.tx.nic + [s.lastReqId + 1])))
  {
    var b := |Handed(s.tx)|;
    var q := Line(s.tx.(nic := s.tx.nic + [s.lastReqId + 1]));
    assert q[b] == s.lastReqId + 1 && q[b + 1] == s.tx.posted[0];
    assert s.tx.posted[0] in Line(s.tx);
  }

  lemma LatePostUnsorts(l: Lane, id: nat)
    requires !Above(id, Line(l))
    ensures !Increasing(Line(l) + [id])
  {
    var x :| x in Line(l) && x >= id;
    var i :| 0 <= i < |Line(l)| && Line(l)[i] == x;
    var q := Line(l) + [id];
    assert q[i] == x && q[|Line(l)|] == id;
  }

  /**
    The ids on the TX line stay sorted, and so reach the NIC in increasing order, if and only if the
    call kept the order.
   */
  lemma OrderIff(s: State, e: Step)
    requires Inv(s) && Enabled(s, e)
    ensures Increasing(Line(Apply(s, e).tx)) <==> KeepsOrder(s, e)
  {
    if KeepsOrder(s, e) { OrderKept(s, e); } else { OrderBroken(s, e); }
  }

  lemma OrderBroken(s: State, e: Step)
    requires Inv(s) && Enabled(s, e) && !KeepsOrder(s, e)
    ensures !Increasing(Line(Apply(s, e).tx))
  {
    if e.IsendNow? {
      OvertakingUnsorts(s);
    } else {
      LatePostUnsorts(s.tx, e.id);
      LatePostLine(s, e);
    }
  }

  lemma LatePostLine(s: State, e: Step)
    requires Enabled(s, e) && (e.IsendPost? || e.SendPost?) && s.lastPostedTrigger < e.id
    ensures Line(Apply(s, e).tx) == Line(s.tx) + [e.id]
  {
  }

  lemma OrderKept(s: State, e: Step)
    requires Inv(s) && Enabled(s, e) && KeepsOrder(s, e)
    ensures Increasing(Line(Apply(s, e).tx))
  {
    if e.WaitOnStream? {
      assert Line(Apply(s, e).tx) == Line(s.tx);
    } else {
      StepKeeps(s, e);
    }
  }

  lemma SnocTrace(states: seq<State>, steps: seq<Step>, e: Step, t: State)
    requires Trace(states, steps) && Enabled(states[|steps|], e) && t == Apply(states[|steps|], e)
    ensures Trace(states + [t], steps + [e])
  {
    var ss, es := states + [t], steps + [e];
    forall i | 0 <= i < |es| ensures Enabled(ss[i], es[i]) && ss[i + 1] == Apply(ss[i], es[i]) {
      if i < |steps| { assert es[i] == steps[i] && ss[i] == states[i] && ss[i + 1] == states[i + 1]; }
    }
  }

  const OVERTAKEN := Lane([1], [2], [], [], {1, 2}, 2, 0)
  const OVERTAKEN_CMDS := [Trigger(1), WaitTracked(TX, 1), WaitTracked(TX, 2)]

  lemma OvertakingCalls() returns (states: seq<State>, steps: seq<Step>)
    ensures Trace(states, steps) && states[0] == INIT && steps == [SendOnStream, IsendNow, WaitOnStream(TX, 2)]
    ensures states[3] == State(2, 1, 0, {}, OVERTAKEN, EMPTY_LANE, OVERTAKEN_CMDS, 0, false)
    ensures |states[1].issued| == 2
  {
    var s1 := State(1, 1, 0, {}, Lane([1], [], [], [], {1}, 1, 0), EMPTY_LANE,
                    [Trigger(1), WaitTracked(TX, 1)], 0, false);
    assert Apply(INIT, SendOnStream) == s1;
    var s2 := s1.(lastReqId := 2, tx := Lane([1], [2], [], [], {1}, 1, 0));
    assert Apply(s1, IsendNow) == s2;
    var s3 := s2.(tx := OVERTAKEN, issued := OVERTAKEN_CMDS);
    assert Apply(s2, WaitOnStream(TX, 2)) == s3;
    states := [INIT, s1, s2, s3];
    steps := [SendOnStream, IsendNow, WaitOnStream(TX, 2)];
  }

  const PASSED := Lane([1], [], [], [2], {1, 2}, 2, 2)

  lemma OvertakingReports() returns (states: seq<State>, steps: seq<Step>)
    ensures Trace(states, steps) && states[0] == INIT && |steps| == 5 && steps[0] == SendOnStream
    ensures states[5] == State(2, 1, 0, {}, PASSED, EMPTY_LANE, OVERTAKEN_CMDS, 0, false)
    ensures |states[1].issued| == 2
  {
    states, steps := OvertakingCalls();
    var s3 := states[3];
    var s4 := s3.(tx := Lane([1], [], [2], [], {1, 2}, 2, 0));
    assert Apply(s3, NicComplete(TX)) == s4;
    SnocTrace(states, steps, NicComplete(TX), s4);
    states, steps := states + [s4], steps + [NicComplete(TX)];
    var s5 := s3.(tx := PASSED);
    assert Apply(s4, Poll(TX)) == s5;
    SnocTrace(states, steps, Poll(TX), s5);
    states, steps := states + [s5], steps + [Poll(TX)];
  }

  /**
    Why an immediate mp_isend must not overtake a deferred one: with one deferred send (id 1) still on
    the posted list, an immediate send (id 2) completes first, and the stream passes its wait on
    request 1 although request 1 was not even handed to the NIC.
   */
  lemma OvertakingPassesWait() returns (states: seq<State>, steps: seq<Step>)
    ensures Trace(states, steps) && states[0] == INIT && |steps| == 7
    ensures steps[0] == SendOnStream && WaitsFor(INIT, steps[0], TX, 1)
    ensures |states[1].issued| <= states[7].executed && 1 !in states[7].tx.polled
    ensures states[7].tx == Lane([1], [], [], [2], {1, 2}, 2, 2) && states[7].lastTrigger == 1
  {
    states, steps := OvertakingReports();
    var s5 := states[5];
    var s6 := s5.(executed := 1, lastTrigger := 1);
    assert Apply(s5, StreamStep) == s6;
    SnocTrace(states, steps, StreamStep, s6);
    states, steps := states + [s6], steps + [StreamStep];
    var s7 := s6.(executed := 2);
    assert Apply(s6, StreamStep) == s7;
    SnocTrace(states, steps, StreamStep, s7);
    states, steps := states + [s7], steps + [StreamStep];
  }

  /** The overtaken request completes after the overtaking one was reported. */
  lemma OvertakenReturns() returns (states: seq<State>, steps: seq<Step>)
    ensures Trace(states, steps) && states[0] == INIT && |steps| == 9
    ensures states[9].tx == Lane([], [], [1], [2], {1, 2}, 2, 2)
  {
    states, steps := OvertakingPassesWait();
    var s7 := states[7];
    var s8 := s7.(tx := Lane([], [1], [], [2], {1, 2}, 2, 2));
    SnocTrace(states, steps, NicPost(true), s8);
    states, steps := states + [s8], steps + [NicPost(true)];
    var s9 := s7.(tx := Lane([], [], [1], [2], {1, 2}, 2, 2));
    SnocTrace(states, steps, NicComplete(TX), s9);
    states, steps := states + [s9], steps + [NicComplete(TX)];
  }

  /** The same run then fails the tracked-id assertion when request 1 is polled at last. */
  lemma OvertakingFaults() returns (states: seq<State>, steps: seq<Step>)
    ensures Trace(states, steps) && states[0] == INIT && states[|steps|].fault
  {
    states, steps := OvertakenReturns();
    var s9 := states[9];
    SnocTrace(states, steps, Poll(TX), PollStep(s9, TX));
    states, steps := states + [PollStep(s9, TX)], steps + [Poll(TX)];
  }

  /** From s on, nothing the stream starts after its current queue runs before id completed. */
  ghost predicate SafeFrom(s: State, id: nat) {
    forall states: seq<State>, steps: seq<Step> |
      Disciplined(states, steps) && states[0] == s && |s.issued| <= states[|steps|].executed ::
      id in states[|steps|].tx.polled
  }

  lemma {:induction false} DrainedLine(states: seq<State>, steps: seq<Step>, k: nat, id: nat)
    requires Trace(states, steps) && k < |states| && id !in Line(states[0].tx)
    requires forall i :: 0 <= i < |steps| ==> EngineStep(steps[i])
    ensures id !in Line(states[k].tx)
  {
    if k > 0 {
      DrainedLine(states, steps, k - 1, id);
      EngineExtends(states[k - 1], steps[k - 1]);
    }
  }

  lemma DisciplinedPolls(states: seq<State>, steps: seq<Step>, id: nat)
    requires Disciplined(states, steps) && Inv(states[0]) && Fenced(states[0], TX, id, |states[0].issued|)
    requires |states[0].issued| <= states[|steps|].executed
    ensures id in states[|steps|].tx.polled
  {
    var s, t := states[0], states[|steps|];
    DisciplinedKeeps(states, steps, |steps|);
    TraceExtends(states, steps, 0, |steps|);
    FencedExtends(s, t, TX, id, |s.issued|);
    if id !in LaneOf(t, TX).polled {
      var p, w :| p < |s.issued| && id <= w && WaitAt(t, p, TX, w);
      TrackedCoversBelow(t, TX, id, w);
    }
  }

  /**
    When the code drops a stream wait on request id because a later id is already waited for, the wait
    is honoured in every continuation if and only if the request had been accepted for posting.
   */
  lemma ElidedWaitSoundIff(s: State, id: nat)
    requires Inv(s) && Enabled(s, WaitOnStream(TX, id)) && id <= s.tx.lastPostedTracked
    ensures Apply(s, WaitOnStream(TX, id)) == s
    ensures SafeFrom(s, id) <==> id in Line(s.tx)
  {
    if id in Line(s.tx) {
      CallFences(s, WaitOnStream(TX, id), TX, id);
      forall states: seq<State>, steps: seq<Step> | Disciplined(states, steps) && states[0] == s
        && |s.issued| <= states[|steps|].executed
        ensures id in states[|steps|].tx.polled
      {
        DisciplinedPolls(states, steps, id);
      }
    } else {
      var states, steps := Drain(s);
      var t := states[|steps|];
      TraceExtends(states, steps, 0, |steps|);
      DrainedLine(states, steps, |steps|, id);
      assert forall x :: x in t.tx.polled ==> x in Line(t.tx);
      assert |s.issued| <= t.executed && id !in t.tx.polled;
    }
  }
}
