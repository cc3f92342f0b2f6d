/**
  What safety asks of calls on the TX flow. The sorted line of EventSyncInvariant is more than it
  needs: an id may be accepted late, provided every later id accepted before it has completed and
  was never waited for.
 */
module EventSyncOrder {
  import opened EventSync
  import opened EventSyncInvariant
  import opened EventSyncTheorems

  /** Every accepted id above id has been polled and is not flagged. */
  predicate NoneOpenAbove(l: Lane, id: nat) {
    forall x :: x in Line(l) && x > id ==> x in l.polled && x !in l.triggered
  }

  /** The guard: what a caller has to see to before a call on the TX flow. */
  predicate InOrder(s: State, e: Step) {
    match e
    case IsendNow => s.tx.posted == []
    case IsendPost(id) => id > s.lastPostedTrigger ==> NoneOpenAbove(s.tx, id)
    case SendPost(id) => id > s.lastPostedTrigger ==> NoneOpenAbove(s.tx, id)
    case WaitOnStream(f, id) => id in Line(LaneOf(s, f))
    case _ => true
  }

  ghost predicate Tolerant(states: seq<State>, steps: seq<Step>) {
    && Trace(states, steps)
    && forall i {:trigger steps[i]} :: 0 <= i < |steps| ==> InOrder(states[i], steps[i])
  }

  // ---- a state is as good as the one without its inert ids ------------------------------------------

  /** v is u without some ids that were polled, are not flagged and cannot be accepted again. */
  ghost predicate Slim(u: State, v: State, gone: set<nat>) {
    && v == u.(tx := u.tx.(polled := v.tx.polled))
    && (forall x :: x in u.tx.polled <==> x in v.tx.polled || x in gone)
    && (forall x :: x in gone ==> x !in Line(v.tx) && x !in u.tx.triggered && x !in u.prepared && x <= u.lastReqId)
  }

  ghost predicate Shadow(u: State, v: State, gone: set<nat>) { Slim(u, v, gone) && Inv(v) }

  /** Without its inert ids the state satisfies the invariant. */
  ghost predicate Loose(u: State) { exists v, gone :: HasShadow(u, v, gone) }

  /** A shadow is looked into only where a fact is shown; callers hand it on. */
  predicate Shown(k: int) { 0 <= k }

  ghost predicate HasShadow(u: State, v: State, gone: set<nat>) {
    forall k {:trigger Shown(k)} :: Shown(k) ==> Shadow(u, v, gone)
  }

  lemma ShadowOf(u: State) returns (v: State, gone: set<nat>)
    requires Loose(u)
    ensures Shadow(u, v, gone)
  {
    v, gone :| HasShadow(u, v, gone);
    assert Shown(0);
  }

  lemma ShadowLoose(u: State, v: State, gone: set<nat>)
    requires Shadow(u, v, gone)
    ensures Loose(u)
  {
    assert HasShadow(u, v, gone);
  }

  lemma InvLoose(s: State)
    requires Inv(s)
    ensures Loose(s)
  {
    ShadowLoose(s, s, {});
  }

  lemma SlimLine(u: State, v: State, gone: set<nat>)
    requires Slim(u, v, gone)
    ensures forall x :: x in Line(u.tx) <==> x in Line(v.tx) || x in gone
    ensures Line(u.rx) == Line(v.rx)
  {
  }

  lemma StreamSlim(u: State, v: State, gone: set<nat>)
    requires Slim(u, v, gone) && Enabled(u, StreamStep)
    ensures Enabled(v, StreamStep) && Slim(StreamExec(u), StreamExec(v), gone)
  {
    assert Line(StreamExec(v).tx) == Line(v.tx);
  }

  /** A lane that moves an id forward without changing its line. */
  lemma MoveSlim(u: State, v: State, gone: set<nat>, t: State, w: State)
    requires Slim(u, v, gone) && Line(w.tx) == Line(v.tx) && t.prepared == u.prepared && t.lastReqId == u.lastReqId
    requires w == t.(tx := t.tx.(polled := w.tx.polled)) && t.tx.triggered == u.tx.triggered
    requires forall x :: x in t.tx.polled <==> x in w.tx.polled || x in gone
    ensures Slim(t, w, gone)
  {
  }

  lemma NicSlim(u: State, v: State, gone: set<nat>, e: Step)
    requires Slim(u, v, gone) && Enabled(u, e) && (e.NicPost? || e.NicComplete?)
    ensures Enabled(v, e) && Slim(Apply(u, e), Apply(v, e), gone)
  {
    EngineExtends(v, e);
    MoveSlim(u, v, gone, Apply(u, e), Apply(v, e));
  }

  lemma PollSlim(u: State, v: State, gone: set<nat>, f: Flow)
    requires Slim(u, v, gone) && LaneOf(u, f).cq != []
    ensures LaneOf(v, f).cq != [] && Slim(PollStep(u, f), PollStep(v, f), gone)
  {
    LanePollLine(LaneOf(v, f));
    MoveSlim(u, v, gone, PollStep(u, f), PollStep(v, f));
  }

  lemma EngineSlim(u: State, v: State, gone: set<nat>, e: Step)
    requires Slim(u, v, gone) && Enabled(u, e) && !HostCall(e)
    ensures Enabled(v, e) && Slim(Apply(u, e), Apply(v, e), gone)
  {
    if e.StreamStep? {
      StreamSlim(u, v, gone);
    } else if e.Poll? {
      PollSlim(u, v, gone, e.flow);
    } else {
      NicSlim(u, v, gone, e);
    }
  }

  lemma FreshSlim(u: State, v: State, gone: set<nat>)
    requires Slim(u, v, gone)
    ensures Slim(Fresh(u), Fresh(v), gone) && u.lastReqId + 1 !in gone
  {
  }

  lemma AcceptSlim(u: State, v: State, gone: set<nat>, id: nat)
    requires Slim(u, v, gone) && id !in gone
    ensures Slim(Accept(u, id), Accept(v, id), gone)
  {
    assert Line(Accept(v, id).tx) == Line(v.tx) + [id];
  }

  lemma TrackSlim(u: State, v: State, gone: set<nat>, f: Flow, id: nat)
    requires Slim(u, v, gone) && (f.RX? || id !in gone)
    ensures Slim(TrackWait(u, f, id), TrackWait(v, f, id), gone)
  {
    assert Line(TrackWait(v, f, id).tx) == Line(v.tx);
  }

  lemma DirectSlim(u: State, v: State, gone: set<nat>, e: Step)
    requires Slim(u, v, gone) && Enabled(u, e) && (e.IsendOnStream? || e.SendOnStream?)
    ensures Enabled(v, e) && Slim(Apply(u, e), Apply(v, e), gone)
  {
    var id := u.lastReqId + 1;
    FreshSlim(u, v, gone);
    AcceptSlim(Fresh(u), Fresh(v), gone, id);
    TrackSlim(Accept(Fresh(u), id), Accept(Fresh(v), id), gone, TX, id);
  }

  lemma DrawSlim(u: State, v: State, gone: set<nat>, e: Step)
    requires Slim(u, v, gone) && Enabled(u, e) && (e.SendPrepare? || e.Irecv? || e.IsendNow? || e.PutNowait?)
    ensures Enabled(v, e) && Slim(Apply(u, e), Apply(v, e), gone)
  {
    FreshSlim(u, v, gone);
  }

  lemma PostSlim(u: State, v: State, gone: set<nat>, e: Step)
    requires Slim(u, v, gone) && Enabled(u, e) && (e.IsendPost? || e.SendPost?)
    ensures Enabled(v, e) && Slim(Apply(u, e), Apply(v, e), gone)
  {
    assert e.id !in gone;
    AcceptSlim(u, v, gone, e.id);
    TrackSlim(Accept(u, e.id), Accept(v, e.id), gone, TX, e.id);
  }

  lemma WaitSlim(u: State, v: State, gone: set<nat>, f: Flow, id: nat)
    requires Slim(u, v, gone)
    ensures Slim(WaitCall(u, f, id), if f.TX? && id in gone then v else WaitCall(v, f, id), gone)
  {
    if f.RX? || id !in gone { TrackSlim(u, v, gone, f, id); }
  }

  lemma LaunchSlim(u: State, v: State, gone: set<nat>, tag: nat)
    requires Slim(u, v, gone)
    ensures Slim(Queue(u, Kernel(tag)), Queue(v, Kernel(tag)), gone)
  {
  }

  /** The step that mirrors e without the inert ids: none for a wait on one of them. */
  predicate Moot(gone: set<nat>, e: Step) { e.WaitOnStream? && e.flow.TX? && e.id in gone }

  lemma StepSlim(u: State, v: State, gone: set<nat>, e: Step)
    requires Slim(u, v, gone) && Enabled(u, e)
    ensures Moot(gone, e) ==> Slim(Apply(u, e), v, gone)
    ensures !Moot(gone, e) ==> Enabled(v, e) && Slim(Apply(u, e), Apply(v, e), gone)
  {
    match e
    case IsendOnStream => DirectSlim(u, v, gone, e);
    case SendOnStream => DirectSlim(u, v, gone, e);
    case IsendPost(_) => PostSlim(u, v, gone, e);
    case SendPost(_) => PostSlim(u, v, gone, e);
    case WaitOnStream(f, id) => WaitSlim(u, v, gone, f, id);
    case Launch(tag) => LaunchSlim(u, v, gone, tag);
    case SendPrepare => DrawSlim(u, v, gone, e);
    case Irecv => DrawSlim(u, v, gone, e);
    case IsendNow => DrawSlim(u, v, gone, e);
    case PutNowait => DrawSlim(u, v, gone, e);
    case StreamStep => EngineSlim(u, v, gone, e);
    case NicPost(_) => EngineSlim(u, v, gone, e);
    case NicComplete(_) => EngineSlim(u, v, gone, e);
    case Poll(_) => EngineSlim(u, v, gone, e);
  }

  // ---- a late id that finds nothing open above it -----------------------------------------------------

  lemma {:induction false} SplitAt(q: seq<nat>, id: nat) returns (k: nat)
    requires Increasing(q) && id !in q
    ensures k <= |q| && Above(id, q[..k]) && forall x :: x in q[k..] ==> x > id
  {
    if q == [] || q[|q| - 1] < id {
      k := |q|;
      assert forall i :: 0 <= i < |q| ==> q[i] <= q[|q| - 1];
    } else {
      var rest := q[..|q| - 1];
      k := SplitAt(rest, id);
      assert q[..k] == rest[..k] && q[k..] == rest[k..] + [q[|q| - 1]];
    }
  }

  /** If the last id of the line has been polled, so has the whole line. */
  lemma LastPolled(l: Lane)
    requires Increasing(Line(l)) && Line(l) != [] && Line(l)[|Line(l)| - 1] in l.polled
    ensures l.cq == l.nic == l.posted == []
  {
    var q := Line(l);
    var j :| 0 <= j < |l.polled| && l.polled[j] == q[|q| - 1];
    assert q[j] == l.polled[j];
    assert j == |q| - 1;
    assert |q| == |l.polled| + |l.cq| + |l.nic| + |l.posted|;
  }

  lemma LaneCut(l: Lane, k: nat, hi: nat)
    requires LaneOk(l, hi) && l.cq == l.nic == l.posted == [] && k <= |l.polled|
    requires forall x :: x in l.polled[k..] ==> x !in l.triggered
    ensures var m := l.(polled := l.polled[..k]); LaneOk(m, hi) && Line(m) == l.polled[..k]
  {
    var m := l.(polled := l.polled[..k]);
    assert Line(m) == m.polled && Line(l) == l.polled;
    assert l.polled == m.polled + l.polled[k..];
    assert forall i :: 0 <= i < k ==> m.polled[i] == l.polled[i];
    assert forall x :: x in l.polled && x in l.triggered ==> x in m.polled;
    assert forall x :: x in m.polled ==> x in l.polled;
  }

  /** v with only the first k polled ids of its TX lane. */
  function Cut(v: State, k: nat): (t: State)
    requires k <= |v.tx.polled|
  {
    v.(tx := v.tx.(polled := v.tx.polled[..k]))
  }

  lemma CutTriggers(v: State, k: nat)
    requires TriggersOk(v) && v.tx.cq == v.tx.nic == v.tx.posted == [] && k <= |v.tx.polled|
    requires forall x :: x in v.tx.polled[k..] ==> x > v.lastPostedTrigger
    ensures TriggersOk(Cut(v, k))
  {
    var t := Cut(v, k);
    assert Line(t.tx) == t.tx.polled && Handed(t.tx) == t.tx.polled;
    assert Line(v.tx) == v.tx.polled && Handed(v.tx) == v.tx.polled;
    assert forall x :: x in v.tx.polled ==> x in t.tx.polled || x in v.tx.polled[k..];
    assert forall x :: x in t.tx.polled ==> x in v.tx.polled;
    assert forall q, x :: TriggerAt(t, q, x) <==> TriggerAt(v, q, x);
    if v.lastTrigger != 0 {
      var q :| q < v.executed && TriggerAt(v, q, v.lastTrigger);
      assert TriggerAt(t, q, t.lastTrigger);
    }
  }

  lemma CutWaits(v: State, k: nat)
    requires WaitsOk(v) && k <= |v.tx.polled|
    ensures WaitsOk(Cut(v, k))
  {
    var t := Cut(v, k);
    assert forall q, x :: TriggerAt(t, q, x) <==> TriggerAt(v, q, x);
    assert forall p, f, w :: WaitAt(t, p, f, w) <==> WaitAt(v, p, f, w);
    forall f | LaneOf(t, f).lastPostedTracked != 0
      ensures exists p :: WaitAt(t, p, f, LaneOf(t, f).lastPostedTracked)
    {
      var p :| WaitAt(v, p, f, LaneOf(v, f).lastPostedTracked);
      assert WaitAt(t, p, f, LaneOf(t, f).lastPostedTracked);
    }
  }

  lemma CutKeeps(v: State, k: nat)
    requires Inv(v) && v.tx.cq == v.tx.nic == v.tx.posted == [] && k <= |v.tx.polled|
    requires forall x :: x in v.tx.polled[k..] ==> x > v.lastPostedTrigger && x !in v.tx.triggered
    ensures Inv(Cut(v, k))
  {
    LaneCut(v.tx, k, v.lastReqId);
    CutTriggers(v, k);
    CutWaits(v, k);
    assert Line(v.tx) == v.tx.polled;
  }

  lemma LastAbove(q: seq<nat>, id: nat)
    requires Increasing(q) && !Above(id, q) && id !in q
    ensures q != [] && q[|q| - 1] > id
  {
    var x :| x in q && x >= id;
    var i :| 0 <= i < |q| && q[i] == x;
  }

  /** An unsorted late id: the line ends above it, and all of it has been polled. */
  lemma LateMeansPolled(l: Lane, id: nat, hi: nat)
    requires LaneOk(l, hi) && !Above(id, Line(l)) && id !in Line(l) && NoneOpenAbove(l, id)
    ensures l.cq == l.nic == l.posted == [] && Line(l) == l.polled
  {
    LastAbove(Line(l), id);
    assert Line(l)[|Line(l)| - 1] in Line(l);
    LastPolled(l);
  }

  lemma CutSome(v: State, id: nat, k: nat)
    requires Line(v.tx) == v.tx.polled && k <= |v.tx.polled| && NoneOpenAbove(v.tx, id)
    requires v.tx.cq == v.tx.nic == v.tx.posted == [] && forall x :: x in v.tx.polled[k..] ==> x > id
    ensures Line(Cut(v, k).tx) == v.tx.polled[..k]
    ensures forall x :: x in v.tx.polled[k..] ==> x > id && x !in v.tx.triggered
  {
    assert forall x :: x in v.tx.polled[k..] ==> x in Line(v.tx);
  }

  /** Without the ids above id, which are all complete and unflagged, accepting id keeps the order. */
  lemma CutAbove(v: State, id: nat) returns (k: nat)
    requires Inv(v) && v.lastPostedTrigger < id && id !in Line(v.tx) && NoneOpenAbove(v.tx, id)
    requires !Above(id, Line(v.tx))
    ensures k <= |v.tx.polled| && Inv(Cut(v, k)) && Above(id, Line(Cut(v, k).tx))
    ensures forall x :: x in v.tx.polled[k..] ==> x > id && x !in v.tx.triggered
  {
    LateMeansPolled(v.tx, id, v.lastReqId);
    k := SplitAt(v.tx.polled, id);
    CutSome(v, id, k);
    CutKeeps(v, k);
  }

  lemma SlimCut(u: State, v: State, gone: set<nat>, k: nat) returns (more: set<nat>)
    requires Shadow(u, v, gone) && k <= |v.tx.polled| && Inv(Cut(v, k))
    requires forall x :: x in v.tx.polled[k..] ==> x !in Line(Cut(v, k).tx) && x !in v.tx.triggered
    ensures Shadow(u, Cut(v, k), more)
  {
    more := gone + set x | x in v.tx.polled[k..];
    var w := Cut(v, k);
    assert forall x :: x in v.tx.polled <==> x in v.tx.polled[..k] || x in v.tx.polled[k..];
    assert forall x :: x in v.tx.polled ==> x in Line(v.tx);
    assert forall x :: x in Line(w.tx) ==> x in Line(v.tx);
  }

  // ---- every call in order keeps the state loose --------------------------------------------------------

  /** Accepting id late is, without the inert ids, accepting it in order. */
  lemma FitPost(u: State, v: State, gone: set<nat>, id: nat) returns (w: State, more: set<nat>)
    requires Shadow(u, v, gone) && id in u.prepared && u.lastPostedTrigger < id && NoneOpenAbove(u.tx, id)
    ensures Shadow(u, w, more) && Above(id, Line(w.tx))
  {
    if Above(id, Line(v.tx)) {
      w, more := v, gone;
    } else {
      SlimLine(u, v, gone);
      assert NoneOpenAbove(v.tx, id);
      assert id !in Line(v.tx);
      var k := CutAbove(v, id);
      w := Cut(v, k);
      more := SlimCut(u, v, gone, k);
    }
  }

  lemma FitStep(u: State, v: State, gone: set<nat>, e: Step) returns (w: State, more: set<nat>)
    requires Shadow(u, v, gone) && Enabled(u, e) && InOrder(u, e)
    ensures Shadow(u, w, more) && (!Moot(more, e) ==> Permitted(w, e))
  {
    w, more := v, gone;
    if (e.IsendPost? || e.SendPost?) && u.lastPostedTrigger < e.id {
      PostedBelow(v, e.id);
      w, more := FitPost(u, v, gone, e.id);
    } else if e.WaitOnStream? {
      SlimLine(u, v, gone);
    }
  }

  lemma ShadowStep(u: State, w: State, more: set<nat>, e: Step)
    requires Shadow(u, w, more) && Enabled(u, e) && (!Moot(more, e) ==> Permitted(w, e))
    ensures Shadow(Apply(u, e), if Moot(more, e) then w else Apply(w, e), more)
  {
    StepSlim(u, w, more, e);
    if !Moot(more, e) { StepKeeps(w, e); }
  }

  lemma StepLoose(u: State, e: Step)
    requires Loose(u) && Enabled(u, e) && InOrder(u, e)
    ensures Loose(Apply(u, e)) && Extends(u, Apply(u, e))
  {
    var v, gone := ShadowOf(u);
    var w, more := FitStep(u, v, gone, e);
    ShadowStep(u, w, more, e);
    ShadowLoose(Apply(u, e), if Moot(more, e) then w else Apply(w, e), more);
    StepExtends(u, e, Apply(u, e));
  }

  /** A waiting call puts a fence in place here too. */
  lemma LooseFences(u: State, e: Step, f: Flow, id: nat)
    requires Loose(u) && Enabled(u, e) && InOrder(u, e) && WaitsFor(u, e, f, id)
    ensures var t := Apply(u, e); Fenced(t, f, id, |t.issued|)
  {
    var v, gone := ShadowOf(u);
    var w, more := FitStep(u, v, gone, e);
    ShadowStep(u, w, more, e);
    if !Moot(more, e) {
      StepSlim(u, w, more, e);
      CallFences(w, e, f, id);
      FencedShadow(Apply(u, e), Apply(w, e), more, f, id, |Apply(u, e).issued|);
    }
  }

  lemma FencedShadow(u: State, v: State, gone: set<nat>, f: Flow, id: nat, limit: nat)
    requires Slim(u, v, gone) && Fenced(v, f, id, limit)
    ensures Fenced(u, f, id, limit)
  {
    SlimLine(u, v, gone);
    if id !in LaneOf(u, f).polled {
      var p, w :| p < limit && id <= w && WaitAt(v, p, f, w);
      assert WaitAt(u, p, f, w);
    }
  }

  /** A fence the stream has run past was honoured. */
  lemma LooseHonours(u: State, f: Flow, id: nat, limit: nat)
    requires Loose(u) && Fenced(u, f, id, limit) && limit <= u.executed
    ensures id in LaneOf(u, f).polled
  {
    var v, gone := ShadowOf(u);
    SlimLine(u, v, gone);
    if id !in LaneOf(u, f).polled {
      var p, w :| p < limit && id <= w && WaitAt(u, p, f, w);
      assert WaitAt(v, p, f, w);
      TrackedCoversBelow(v, f, id, w);
    }
  }

  // ---- whole runs ----------------------------------------------------------------------------------------

  /** Step i asked for a wait on id, and the stream ran past everything queued by then. */
  ghost predicate WaitPassed(states: seq<State>, steps: seq<Step>, i: nat, f: Flow, id: nat)
    requires Trace(states, steps)
  {
    && i < |steps| && WaitsFor(states[i], steps[i], f, id)
    && |states[i + 1].issued| <= states[|steps|].executed
  }

  /** No assertion failed, and no wait was passed before its completion was polled. */
  ghost predicate Honoured(states: seq<State>, steps: seq<Step>)
    requires Trace(states, steps)
  {
    var s, t := states[0], states[|steps|];
    && !t.fault
    && (forall i: nat, f: Flow, id: nat :: WaitPassed(states, steps, i, f, id) ==> id in LaneOf(t, f).polled)
    && (forall f: Flow, id: nat, limit: nat :: Fenced(s, f, id, limit) && limit <= t.executed ==> id in LaneOf(t, f).polled)
  }

  lemma LooseNext(s: State, e: Step, t: State)
    requires Loose(s) && Enabled(s, e) && InOrder(s, e) && t == Apply(s, e)
    ensures Loose(t) && Extends(s, t)
  {
    StepLoose(s, e);
  }

  lemma TolerantNext(states: seq<State>, steps: seq<Step>, k: nat)
    requires Tolerant(states, steps) && k < |steps| && Loose(states[k])
    ensures Loose(states[k + 1]) && Extends(states[k], states[k + 1])
  {
    LooseNext(states[k], steps[k], states[k + 1]);
  }

  lemma {:induction false} TolerantLoose(states: seq<State>, steps: seq<Step>, k: nat)
    requires Tolerant(states, steps) && Loose(states[0]) && k < |states|
    ensures Loose(states[k])
  {
    if k > 0 {
      TolerantLoose(states, steps, k - 1);
      TolerantNext(states, steps, k - 1);
    }
  }

  lemma TolerantStep(states: seq<State>, steps: seq<Step>, k: nat)
    requires Tolerant(states, steps) && Loose(states[0]) && k < |steps|
    ensures Extends(states[k], states[k + 1])
  {
    TolerantLoose(states, steps, k);
    TolerantNext(states, steps, k);
  }

  lemma {:induction false} TolerantExtends(states: seq<State>, steps: seq<Step>, i: nat, k: nat)
    requires Tolerant(states, steps) && Loose(states[0]) && i <= k < |states|
    ensures Extends(states[i], states[k])
    decreases k
  {
    if i < k {
      TolerantExtends(states, steps, i, k - 1);
      TolerantStep(states, steps, k - 1);
      ExtendsTransitive(states[i], states[k - 1], states[k]);
    }
  }

  lemma TolerantFence(states: seq<State>, steps: seq<Step>, i: nat, f: Flow, id: nat)
    requires Tolerant(states, steps) && Loose(states[0]) && i < |steps| && WaitsFor(states[i], steps[i], f, id)
    ensures Fenced(states[i + 1], f, id, |states[i + 1].issued|)
  {
    TolerantLoose(states, steps, i);
    LooseFences(states[i], steps[i], f, id);
  }

  lemma TolerantFenceHolds(states: seq<State>, steps: seq<Step>, i: nat, f: Flow, id: nat, limit: nat)
    requires Tolerant(states, steps) && Loose(states[0]) && i < |states| && Fenced(states[i], f, id, limit)
    requires limit <= states[|steps|].executed
    ensures id in LaneOf(states[|steps|], f).polled
  {
    TolerantExtends(states, steps, i, |steps|);
    FencedExtends(states[i], states[|steps|], f, id, limit);
    TolerantLoose(states, steps, |steps|);
    LooseHonours(states[|steps|], f, id, limit);
  }

  lemma TolerantWaitHolds(states: seq<State>, steps: seq<Step>, i: nat, f: Flow, id: nat)
    requires Tolerant(states, steps) && Loose(states[0]) && WaitPassed(states, steps, i, f, id)
    ensures id in LaneOf(states[|steps|], f).polled
  {
    TolerantFence(states, steps, i, f, id);
    TolerantFenceHolds(states, steps, i + 1, f, id, |states[i + 1].issued|);
  }

  lemma TolerantFaultless(states: seq<State>, steps: seq<Step>)
    requires Tolerant(states, steps) && Loose(states[0])
    ensures !states[|steps|].fault
  {
    TolerantLoose(states, steps, |steps|);
    NoFault(states[|steps|]);
  }

  lemma NoFault(s: State)
    requires Loose(s)
    ensures !s.fault
  {
    var v, gone := ShadowOf(s);
  }

  /**
    A caller that follows the guard is safe, whether or not the ids stay sorted: in every such run no
    assertion fails and no wait, queued or dropped, is passed before its completion was polled.
   */
  lemma TolerantSafety(states: seq<State>, steps: seq<Step>)
    requires Tolerant(states, steps) && Loose(states[0])
    ensures Honoured(states, steps)
  {
    var s, t := states[0], states[|steps|];
    TolerantFaultless(states, steps);
    forall i: nat, f: Flow, id: nat | WaitPassed(states, steps, i, f, id) ensures id in LaneOf(t, f).polled {
      TolerantWaitHolds(states, steps, i, f, id);
    }
    forall f: Flow, id: nat, limit: nat | Fenced(s, f, id, limit) && limit <= t.executed
      ensures id in LaneOf(t, f).polled
    {
      TolerantFenceHolds(states, steps, 0, f, id, limit);
    }
  }

  /** So it is for every such run of a client, from its first call on. */
  lemma TolerantRunSafety(states: seq<State>, steps: seq<Step>)
    requires Tolerant(states, steps) && states[0] == INIT
    ensures Honoured(states, steps)
  {
    InitInv();
    InvLoose(INIT);
    TolerantSafety(states, steps);
  }

  /** The guard allows everything the sorted order allows. */
  lemma OrderedIsTolerant(states: seq<State>, steps: seq<Step>)
    requires Disciplined(states, steps)
    ensures Tolerant(states, steps)
  {
    forall i {:trigger steps[i]} | 0 <= i < |steps| ensures InOrder(states[i], steps[i]) {
      assert Permitted(states[i], steps[i]);
    }
  }

  lemma SnocTolerant(states: seq<State>, steps: seq<Step>, e: Step)
    requires Tolerant(states, steps) && Enabled(states[|steps|], e) && InOrder(states[|steps|], e)
    ensures Tolerant(states + [Apply(states[|steps|], e)], steps + [e])
  {
    var ss, es := states + [Apply(states[|steps|], e)], steps + [e];
    SnocTrace(states, steps, e, Apply(states[|steps|], e));
    forall i {:trigger es[i]} | 0 <= i < |es| ensures InOrder(ss[i], es[i]) {
      assert ss[i] == states[i];
      if i < |steps| { assert es[i] == steps[i]; }
    }
  }

  const LATE := State(2, 0, 0, {1}, Lane([], [], [2], [], {}, 0, 0), EMPTY_LANE, [], 0, false)

  lemma LateCalls() returns (states: seq<State>, steps: seq<Step>)
    ensures Tolerant(states, steps) && states[0] == INIT && states[|steps|] == LATE
    ensures steps == [SendPrepare, IsendNow, NicComplete(TX)]
  {
    var s1 := INIT.(lastReqId := 1, prepared := {1});
    assert Apply(INIT, SendPrepare) == s1;
    var s2 := s1.(lastReqId := 2, tx := Lane([], [2], [], [], {}, 0, 0));
    assert Apply(s1, IsendNow) == s2;
    assert Apply(s2, NicComplete(TX)) == LATE;
    states := [INIT, s1, s2, LATE];
    steps := [SendPrepare, IsendNow, NicComplete(TX)];
  }

  /**
    The guard asks for less than sorted ids: a prepared send (id 1) may be accepted after an immediate
    one (id 2) whose completion was polled with no wait asked for.
   */
  lemma LateButSafe() returns (states: seq<State>, steps: seq<Step>)
    ensures Tolerant(states, steps) && states[0] == INIT
    ensures steps == [SendPrepare, IsendNow, NicComplete(TX), Poll(TX), SendPost(1)]
    ensures !KeepsOrder(states[4], steps[4]) && Line(states[5].tx) == [2, 1]
  {
    states, steps := LateCalls();
    SnocTolerant(states, steps, Poll(TX));
    var s4 := LATE.(tx := Lane([], [], [], [2], {}, 0, 0));
    assert Apply(LATE, Poll(TX)) == s4;
    states, steps := states + [s4], steps + [Poll(TX)];
    assert Line(s4.tx) == [2];
    SnocTolerant(states, steps, SendPost(1));
    states, steps := states + [Apply(s4, SendPost(1))], steps + [SendPost(1)];
  }
}
