/**
  Wait elision against a second machine, in which every stream wait is queued, whatever waits are queued
  already. The two run in lockstep: either follows every schedule of the other, and all the difference
  is that the second also runs waits that an earlier one has made idle.
 */
module EventSyncElision {
  import opened EventSync
  import opened EventSyncInvariant
  import opened EventSyncTheorems

  // ---- the machine that always waits ------------------------------------------------------------------------

  function Max(a: nat, b: nat): (m: nat) { if a < b then b else a }

  function AlwaysWait(s: State, f: Flow, id: nat): (t: State) {
    var l := LaneOf(s, f);
    Queue(WithLane(s, f, l.(lastPostedTracked := Max(l.lastPostedTracked, id), triggered := l.triggered + {id})),
          WaitTracked(f, id))
  }

  function SendAlways(s: State): (t: State) { AlwaysWait(Accept(Fresh(s), s.lastReqId + 1), TX, s.lastReqId + 1) }

  function PostAlways(s: State, id: nat): (t: State) {
    if id <= s.lastPostedTrigger then s else AlwaysWait(Accept(s, id), TX, id)
  }

  function CallAlways(s: State, f: Flow, id: nat): (t: State) {
    if id in LaneOf(s, f).polled then s else AlwaysWait(s, f, id)
  }

  /** The same steps as the machine's, but for the waits. */
  function SimpleApply(s: State, e: Step): (t: State)
    requires Enabled(s, e)
  {
    match e
    case SendOnStream => SendAlways(s)
    case SendPost(id) => PostAlways(s, id)
    case WaitOnStream(f, id) => CallAlways(s, f, id)
    case _ => Apply(s, e)
  }

  ghost predicate SimpleRun(states: seq<State>, steps: seq<Step>) {
    && |states| == |steps| + 1 && states[0] == INIT
    && forall i {:trigger steps[i]} :: 0 <= i < |steps| ==>
         Enabled(states[i], steps[i]) && Permitted(states[i], steps[i])
         && states[i + 1] == SimpleApply(states[i], steps[i])
  }

  // ---- the stream without idle waits ------------------------------------------------------------------------

  /** The highest id the commands wait for on a flow. */
  function HighWait(cmds: seq<Cmd>, f: Flow): (h: nat) {
    if cmds == [] then 0
    else
      var c, h := cmds[|cmds| - 1], HighWait(cmds[..|cmds| - 1], f);
      if c.WaitTracked? && c.flow == f then Max(h, c.id) else h
  }

  /** After the commands, c waits for nothing new. */
  predicate Idle(cmds: seq<Cmd>, c: Cmd) { c.WaitTracked? && c.id <= HighWait(cmds, c.flow) }

  function Thin(cmds: seq<Cmd>): (thin: seq<Cmd>) {
    if cmds == [] then []
    else
      var init, c := cmds[..|cmds| - 1], cmds[|cmds| - 1];
      Thin(init) + if Idle(init, c) then [] else [c]
  }

  lemma ThinSnoc(cmds: seq<Cmd>, c: Cmd)
    ensures Thin(cmds + [c]) == Thin(cmds) + if Idle(cmds, c) then [] else [c]
    ensures forall f :: HighWait(cmds + [c], f) ==
              if c.WaitTracked? && c.flow == f then Max(HighWait(cmds, f), c.id) else HighWait(cmds, f)
  {
    assert (cmds + [c])[..|cmds|] == cmds;
  }

  lemma {:induction false} ThinPrefix(cmds: seq<Cmd>, k: nat)
    requires k <= |cmds|
    ensures Thin(cmds[..k]) <= Thin(cmds)
    decreases |cmds|
  {
    if k < |cmds| {
      var init := cmds[..|cmds| - 1];
      ThinPrefix(init, k);
      assert init[..k] == cmds[..k];
    } else {
      assert cmds[..k] == cmds;
    }
  }

  /** An idle wait has an earlier one that is at least as strong. */
  lemma {:induction false} HighWaitAt(s: State, k: nat, f: Flow) returns (p: nat)
    requires k <= |s.issued| && HighWait(s.issued[..k], f) > 0
    ensures p < k && WaitAt(s, p, f, HighWait(s.issued[..k], f))
  {
    var cmds := s.issued[..k];
    var init, c := cmds[..k - 1], cmds[k - 1];
    assert init == s.issued[..k - 1] && c == s.issued[k - 1];
    if HighWait(cmds, f) != HighWait(init, f) {
      p := k - 1;
    } else {
      p := HighWaitAt(s, k - 1, f);
    }
  }

  // ---- in step ----------------------------------------------------------------------------------------------

  predicate LaneAlike(l: Lane, m: Lane) {
    m == l.(triggered := m.triggered, lastTracked := m.lastTracked)
  }

  /** t is s but for idle waits on the stream, the flags they set, and which of the polled ids was last reported. */
  predicate Alike(s: State, t: State) {
    && t == s.(issued := t.issued, executed := t.executed, tx := t.tx, rx := t.rx)
    && LaneAlike(s.tx, t.tx) && LaneAlike(s.rx, t.rx)
  }

  predicate StreamsAlike(s: State, t: State) {
    && s.issued == Thin(t.issued)
    && t.executed <= |t.issued| && s.executed == |Thin(t.issued[..t.executed])|
    && s.tx.lastPostedTracked == HighWait(t.issued, TX)
    && s.rx.lastPostedTracked == HighWait(t.issued, RX)
  }

  /** What is in step is looked into only where a fact is marked; runs hand it from step to step. */
  predicate Marked(k: int) { 0 <= k }

  ghost predicate InStep(s: State, t: State) {
    forall k {:trigger Marked(k)} :: Marked(k) ==> Alike(s, t) && StreamsAlike(s, t) && Inv(s) && Inv(t)
  }

  lemma Look(s: State, t: State)
    requires InStep(s, t)
    ensures Alike(s, t) && StreamsAlike(s, t) && Inv(s) && Inv(t)
  {
    assert Marked(0);
  }

  /** What has run on the two streams is the same but for idle waits. */
  lemma SameRan(s: State, t: State)
    requires StreamsAlike(s, t)
    ensures s.executed <= |s.issued| && s.issued[..s.executed] == Thin(t.issued[..t.executed])
  {
    ThinPrefix(t.issued, t.executed);
  }

  lemma AlikeLanes(s: State, t: State)
    requires Alike(s, t)
    ensures Line(t.tx) == Line(s.tx) && Line(t.rx) == Line(s.rx)
    ensures forall f :: LaneOf(t, f).polled == LaneOf(s, f).polled
    ensures forall f :: LaneOf(t, f).lastPostedTracked == LaneOf(s, f).lastPostedTracked
    ensures forall e: Step :: !e.StreamStep? ==> (Enabled(t, e) <==> Enabled(s, e)) && (Permitted(t, e) <==> Permitted(s, e))
  {
  }

  // ---- calls ------------------------------------------------------------------------------------------------

  /** The high-water mark of a flow once command c is queued. */
  function MarkAfter(l: Lane, f: Flow, c: Cmd): (m: nat) {
    if c.WaitTracked? && c.flow == f then Max(l.lastPostedTracked, c.id) else l.lastPostedTracked
  }

  /** One more command on the simple stream, and on the other unless it is idle. */
  lemma QueueAlike(s: State, t: State, u: State, v: State, c: Cmd)
    requires StreamsAlike(s, t) && v.issued == t.issued + [c] && v.executed == t.executed && u.executed == s.executed
    requires u.issued == if Idle(t.issued, c) then s.issued else s.issued + [c]
    requires forall f :: LaneOf(u, f).lastPostedTracked == MarkAfter(LaneOf(s, f), f, c)
    ensures StreamsAlike(u, v)
  {
    ThinSnoc(t.issued, c);
    assert v.issued[..v.executed] == t.issued[..t.executed];
    assert LaneOf(u, TX) == u.tx && LaneOf(u, RX) == u.rx && LaneOf(s, TX) == s.tx && LaneOf(s, RX) == s.rx;
  }

  lemma SameStream(s: State, t: State, u: State, v: State)
    requires StreamsAlike(s, t) && v.issued == t.issued && v.executed == t.executed
    requires u.issued == s.issued && u.executed == s.executed
    requires u.tx.lastPostedTracked == s.tx.lastPostedTracked && u.rx.lastPostedTracked == s.rx.lastPostedTracked
    ensures StreamsAlike(u, v)
  {
  }

  lemma AcceptAlike(s: State, t: State, id: nat)
    requires Alike(s, t) && StreamsAlike(s, t)
    ensures Alike(Accept(s, id), Accept(t, id)) && StreamsAlike(Accept(s, id), Accept(t, id))
  {
    var u, v := Accept(s, id), Accept(t, id);
    assert forall f :: LaneOf(u, f).lastPostedTracked == LaneOf(s, f).lastPostedTracked;
    QueueAlike(s, t, u, v, Trigger(id));
  }

  lemma WaitAlike(s: State, t: State, f: Flow, id: nat)
    requires Alike(s, t) && StreamsAlike(s, t)
    ensures Alike(TrackWait(s, f, id), AlwaysWait(t, f, id)) && StreamsAlike(TrackWait(s, f, id), AlwaysWait(t, f, id))
  {
    var u, v, c := TrackWait(s, f, id), AlwaysWait(t, f, id), WaitTracked(f, id);
    assert Idle(t.issued, c) <==> id <= LaneOf(s, f).lastPostedTracked;
    assert forall g :: LaneOf(u, g).lastPostedTracked == MarkAfter(LaneOf(s, g), g, c);
    QueueAlike(s, t, u, v, c);
  }

  lemma FreshAlike(s: State, t: State)
    requires Alike(s, t) && StreamsAlike(s, t)
    ensures Alike(Fresh(s), Fresh(t)) && StreamsAlike(Fresh(s), Fresh(t))
  {
  }

  lemma LaunchAlike(s: State, t: State, tag: nat)
    requires Alike(s, t) && StreamsAlike(s, t)
    ensures var u, v := Queue(s, Kernel(tag)), Queue(t, Kernel(tag)); Alike(u, v) && StreamsAlike(u, v)
  {
    var u, v := Queue(s, Kernel(tag)), Queue(t, Kernel(tag));
    assert forall f :: LaneOf(u, f).lastPostedTracked == LaneOf(s, f).lastPostedTracked;
    QueueAlike(s, t, u, v, Kernel(tag));
  }

  lemma AcceptFreshAlike(s: State, t: State, id: nat)
    requires Alike(s, t) && StreamsAlike(s, t) && id == s.lastReqId + 1
    ensures Alike(Accept(Fresh(s), id), Accept(Fresh(t), id)) && StreamsAlike(Accept(Fresh(s), id), Accept(Fresh(t), id))
  {
    FreshAlike(s, t);
    AcceptAlike(Fresh(s), Fresh(t), id);
  }

  /** The two states after a call, looked into only where a fact is marked. */
  ghost predicate Paired(s: State, t: State) {
    forall k {:trigger Marked(k)} :: Marked(k) ==> Alike(s, t) && StreamsAlike(s, t)
  }

  lemma IsendPaired(s: State, t: State, id: nat)
    requires Paired(s, t) && id == s.lastReqId + 1
    ensures Paired(Accept(Fresh(s), id), Accept(Fresh(t), id))
  {
    assert Marked(0);
    AcceptFreshAlike(s, t, id);
  }

  lemma SendPaired(s: State, t: State, id: nat)
    requires Paired(s, t) && id == s.lastReqId + 1 && id == t.lastReqId + 1
    ensures Paired(TrackWait(Accept(Fresh(s), id), TX, id), SendAlways(t))
  {
    assert Marked(0);
    AcceptFreshAlike(s, t, id);
    WaitAlike(Accept(Fresh(s), id), Accept(Fresh(t), id), TX, id);
  }

  lemma IsendPostPaired(s: State, t: State, id: nat)
    requires Paired(s, t)
    ensures Paired(IsendPostCall(s, id), IsendPostCall(t, id))
  {
    assert Marked(0);
    AcceptAlike(s, t, id);
  }

  lemma SendPostPaired(s: State, t: State, id: nat)
    requires Paired(s, t)
    ensures Paired(SendPostCall(s, id), PostAlways(t, id))
  {
    assert Marked(0);
    AcceptAlike(s, t, id);
    WaitAlike(Accept(s, id), Accept(t, id), TX, id);
  }

  lemma WaitPaired(s: State, t: State, f: Flow, id: nat)
    requires Paired(s, t)
    ensures Paired(WaitCall(s, f, id), CallAlways(t, f, id))
  {
    assert Marked(0);
    WaitAlike(s, t, f, id);
  }

  lemma LaunchPaired(s: State, t: State, tag: nat)
    requires Paired(s, t)
    ensures Paired(Queue(s, Kernel(tag)), Queue(t, Kernel(tag)))
  {
    assert Marked(0);
    LaunchAlike(s, t, tag);
  }

  /** Calls that queue nothing, hand-overs, completions and polls change no stream. */
  lemma OtherPaired(s: State, t: State, e: Step)
    requires Alike(s, t) && StreamsAlike(s, t) && Enabled(s, e) && Enabled(t, e)
    requires e.SendPrepare? || e.Irecv? || e.IsendNow? || e.PutNowait? || e.NicPost? || e.NicComplete? || e.Poll?
    requires !Apply(s, e).fault && !Apply(t, e).fault
    ensures Paired(Apply(s, e), Apply(t, e))
  {
    SameStream(s, t, Apply(s, e), Apply(t, e));
  }

  /** The steps that queue a wait, and so are not the same step of both machines. */
  predicate QueuesWait(e: Step) { e.SendOnStream? || e.SendPost? || e.WaitOnStream? }

  lemma SameStep(s: State, e: Step)
    requires Enabled(s, e) && !QueuesWait(e)
    ensures SimpleApply(s, e) == Apply(s, e)
  {
  }

  /** The calls that can queue a command. */
  predicate Queues(e: Step) {
    e.IsendOnStream? || e.SendOnStream? || e.IsendPost? || e.SendPost? || e.WaitOnStream? || e.Launch?
  }

  lemma IsendStep(s: State, t: State)
    requires Paired(s, t) && s.lastReqId == t.lastReqId && Enabled(s, IsendOnStream) && Enabled(t, IsendOnStream)
    ensures Paired(Apply(s, IsendOnStream), SimpleApply(t, IsendOnStream))
  {
    IsendPaired(s, t, s.lastReqId + 1);
  }

  lemma SendStep(s: State, t: State)
    requires Paired(s, t) && s.lastReqId == t.lastReqId && Enabled(s, SendOnStream) && Enabled(t, SendOnStream)
    ensures Paired(Apply(s, SendOnStream), SimpleApply(t, SendOnStream))
  {
    SendIs(s);
    assert SimpleApply(t, SendOnStream) == SendAlways(t);
    SendPaired(s, t, s.lastReqId + 1);
  }

  lemma IsendPostStep(s: State, t: State, id: nat)
    requires Paired(s, t) && s.lastReqId == t.lastReqId && Enabled(s, IsendPost(id)) && Enabled(t, IsendPost(id))
    ensures Paired(Apply(s, IsendPost(id)), SimpleApply(t, IsendPost(id)))
  {
    IsendPostPaired(s, t, id);
  }

  lemma SendPostStep(s: State, t: State, id: nat)
    requires Paired(s, t) && s.lastReqId == t.lastReqId && Enabled(s, SendPost(id)) && Enabled(t, SendPost(id))
    ensures Paired(Apply(s, SendPost(id)), SimpleApply(t, SendPost(id)))
  {
    SendPostPaired(s, t, id);
  }

  lemma WaitStep(s: State, t: State, f: Flow, id: nat)
    requires Paired(s, t) && s.lastReqId == t.lastReqId && Enabled(s, WaitOnStream(f, id)) && Enabled(t, WaitOnStream(f, id))
    ensures Paired(Apply(s, WaitOnStream(f, id)), SimpleApply(t, WaitOnStream(f, id)))
  {
    WaitPaired(s, t, f, id);
  }

  lemma LaunchStep(s: State, t: State, tag: nat)
    requires Paired(s, t) && s.lastReqId == t.lastReqId && Enabled(s, Launch(tag)) && Enabled(t, Launch(tag))
    ensures Paired(Apply(s, Launch(tag)), SimpleApply(t, Launch(tag)))
  {
    LaunchPaired(s, t, tag);
  }

  lemma QueuePaired(s: State, t: State, e: Step)
    requires Paired(s, t) && s.lastReqId == t.lastReqId && Enabled(s, e) && Enabled(t, e) && Queues(e)
    ensures Paired(Apply(s, e), SimpleApply(t, e))
  {
    match e
    case IsendOnStream => IsendStep(s, t);
    case SendOnStream => SendStep(s, t);
    case IsendPost(id) => IsendPostStep(s, t, id);
    case SendPost(id) => SendPostStep(s, t, id);
    case WaitOnStream(f, id) => WaitStep(s, t, f, id);
    case Launch(tag) => LaunchStep(s, t, tag);
  }

  lemma CallPaired(s: State, t: State, e: Step)
    requires Alike(s, t) && StreamsAlike(s, t) && Enabled(s, e) && Enabled(t, e) && !e.StreamStep?
    requires !Apply(s, e).fault && !Apply(t, e).fault
    ensures Paired(Apply(s, e), SimpleApply(t, e))
  {
    if Queues(e) {
      QueuePaired(s, t, e);
    } else {
      OtherPaired(s, t, e);
      SameStep(t, e);
    }
  }

  // ---- the simple machine keeps the invariant ---------------------------------------------------------------

  lemma AlwaysTriggers(s: State, f: Flow, id: nat)
    requires TriggersOk(s) && s.executed <= |s.issued|
    ensures TriggersOk(AlwaysWait(s, f, id))
  {
    var t := AlwaysWait(s, f, id);
    QueueAt(s, t, WaitTracked(f, id));
    assert forall q, x :: TriggerAt(t, q, x) <==> TriggerAt(s, q, x);
    assert Line(t.tx) == Line(s.tx) && Handed(t.tx) == Handed(s.tx) && t.tx.posted == s.tx.posted;
  }

  lemma AlwaysMarks(s: State, f: Flow, id: nat)
    requires WaitsOk(s)
    ensures var t := AlwaysWait(s, f, id);
      forall g :: LaneOf(t, g).lastPostedTracked == 0 || exists p :: WaitAt(t, p, g, LaneOf(t, g).lastPostedTracked)
  {
    var t := AlwaysWait(s, f, id);
    QueueAt(s, t, WaitTracked(f, id));
    assert WaitAt(t, |s.issued|, f, id);
    forall g | LaneOf(t, g).lastPostedTracked != 0
      ensures exists p :: WaitAt(t, p, g, LaneOf(t, g).lastPostedTracked)
    {
      if LaneOf(t, g).lastPostedTracked == LaneOf(s, g).lastPostedTracked {
        var p :| WaitAt(s, p, g, LaneOf(s, g).lastPostedTracked);
        assert WaitAt(t, p, g, LaneOf(t, g).lastPostedTracked);
      }
    }
  }

  lemma AlwaysWaits(s: State, f: Flow, id: nat)
    requires WaitsOk(s) && s.executed <= |s.issued|
    ensures WaitsOk(AlwaysWait(s, f, id))
  {
    var t := AlwaysWait(s, f, id);
    QueueAt(s, t, WaitTracked(f, id));
    AlwaysMarks(s, f, id);
    assert forall g :: LaneOf(s, g).triggered <= LaneOf(t, g).triggered && LaneOf(t, g).lastTracked == LaneOf(s, g).lastTracked;
    assert id in LaneOf(t, f).triggered;
  }

  lemma AlwaysKeeps(s: State, f: Flow, id: nat)
    requires Inv(s) && id in Line(LaneOf(s, f)) && id !in LaneOf(s, f).polled
    ensures Inv(AlwaysWait(s, f, id))
  {
    TrackLane(LaneOf(s, f), s.lastReqId, id, Max(LaneOf(s, f).lastPostedTracked, id));
    AlwaysTriggers(s, f, id);
    AlwaysWaits(s, f, id);
  }

  lemma AcceptAlwaysKeeps(s: State, id: nat)
    requires Inv(s) && 1 <= id <= s.lastReqId && Above(id, Line(s.tx)) && s.lastPostedTrigger < id
    ensures Inv(AlwaysWait(Accept(s, id), TX, id))
  {
    AcceptKeeps(s, id);
    AlwaysKeeps(Accept(s, id), TX, id);
  }

  lemma FreshMark(s: State)
    requires Inv(s)
    ensures s.lastPostedTrigger < s.lastReqId + 1
  {
  }

  /** The invariant, looked into only where a fact is marked. */
  ghost predicate Sound(s: State) { forall k {:trigger Marked(k)} :: Marked(k) ==> Inv(s) }

  lemma Holds(s: State)
    requires Sound(s)
    ensures Inv(s)
  {
    assert Marked(0);
  }

  lemma SendAlwaysKeeps(s: State, u: State, id: nat)
    requires Sound(s) && u == Fresh(s) && id == s.lastReqId + 1
    ensures Sound(AlwaysWait(Accept(u, id), TX, id))
  {
    Holds(s);
    FreshKeeps(s);
    FreshMark(s);
    AcceptAlwaysKeeps(u, id);
  }

  lemma PostAlwaysKeeps(s: State, id: nat)
    requires Sound(s) && Enabled(s, SendPost(id)) && Permitted(s, SendPost(id))
    ensures Sound(PostAlways(s, id))
  {
    Holds(s);
    if s.lastPostedTrigger < id {
      PostedIdRange(s, id);
      AcceptAlwaysKeeps(s, id);
    }
  }

  lemma CallAlwaysKeeps(s: State, f: Flow, id: nat)
    requires Sound(s) && id in Line(LaneOf(s, f))
    ensures Sound(CallAlways(s, f, id))
  {
    Holds(s);
    if id !in LaneOf(s, f).polled { AlwaysKeeps(s, f, id); }
  }

  lemma StepSound(s: State, e: Step)
    requires Sound(s) && Enabled(s, e) && Permitted(s, e)
    ensures Sound(Apply(s, e))
  {
    Holds(s);
    StepKeeps(s, e);
  }

  lemma WaitingStep(s: State, e: Step)
    requires Enabled(s, e) && QueuesWait(e)
    ensures e.SendOnStream? ==> SimpleApply(s, e) == AlwaysWait(Accept(Fresh(s), s.lastReqId + 1), TX, s.lastReqId + 1)
    ensures e.SendPost? ==> SimpleApply(s, e) == PostAlways(s, e.id)
    ensures e.WaitOnStream? ==> SimpleApply(s, e) == CallAlways(s, e.flow, e.id)
  {
  }

  /** The machine that always waits keeps the invariant of the other. */
  lemma SimpleKeeps(s: State, e: Step)
    requires Sound(s) && Enabled(s, e) && Permitted(s, e)
    ensures Sound(SimpleApply(s, e))
  {
    if !QueuesWait(e) {
      StepSound(s, e);
      SameStep(s, e);
    } else if e.SendOnStream? {
      SendAlwaysKeeps(s, Fresh(s), s.lastReqId + 1);
      WaitingStep(s, e);
    } else if e.SendPost? {
      PostAlwaysKeeps(s, e.id);
      WaitingStep(s, e);
    } else {
      CallAlwaysKeeps(s, e.flow, e.id);
      WaitingStep(s, e);
    }
  }

  // ---- the streams run in step ------------------------------------------------------------------------------

  /** The next command of the simple stream is an idle wait. */
  predicate AtIdle(t: State) {
    t.executed < |t.issued| && Idle(t.issued[..t.executed], t.issued[t.executed])
  }

  lemma NoFault(s: State)
    requires Inv(s)
    ensures !s.fault && s.executed <= |s.issued|
  {
  }

  /** Every step but the stream's is the same step of both machines. */
  lemma CallInStep(s: State, t: State, e: Step)
    requires InStep(s, t) && !e.StreamStep? && Enabled(s, e) && Permitted(s, e)
    ensures Enabled(t, e) && Permitted(t, e) && InStep(Apply(s, e), SimpleApply(t, e))
  {
    Look(s, t);
    AlikeLanes(s, t);
    StepKeeps(s, e);
    SimpleKeeps(t, e);
    Holds(SimpleApply(t, e));
    StepKeeps(t, e);
    NoFault(Apply(s, e));
    NoFault(Apply(t, e));
    CallPaired(s, t, e);
  }

  /** A stream wait is satisfied on one machine exactly when it is on the other. */
  lemma PolledIff(s: State, f: Flow, w: nat)
    requires Inv(s) && w in LaneOf(s, f).triggered
    ensures w <= LaneOf(s, f).lastTracked <==> w in LaneOf(s, f).polled
  {
    assert LaneOk(LaneOf(s, f), s.lastReqId);
    if w <= LaneOf(s, f).lastTracked { TrackedCoversBelow(s, f, w, w); }
  }

  lemma WaitFlagged(s: State, p: nat, f: Flow, w: nat)
    requires Inv(s) && WaitAt(s, p, f, w)
    ensures w in LaneOf(s, f).triggered
  {
  }

  lemma SameBlocked(s: State, t: State, c: Cmd)
    requires InStep(s, t) && s.executed < |s.issued| && t.executed < |t.issued|
    requires s.issued[s.executed] == c == t.issued[t.executed]
    ensures Blocked(s, c) <==> Blocked(t, c)
  {
    Look(s, t);
    if c.WaitTracked? {
      WaitFlagged(s, s.executed, c.flow, c.id);
      WaitFlagged(t, t.executed, c.flow, c.id);
      PolledIff(s, c.flow, c.id);
      PolledIff(t, c.flow, c.id);
      AlikeLanes(s, t);
    }
  }

  /** What the next command of the simple stream is to the other. */
  lemma NextThin(s: State, t: State)
    requires StreamsAlike(s, t) && t.executed < |t.issued|
    ensures Thin(t.issued[..t.executed + 1]) ==
            Thin(t.issued[..t.executed]) + if AtIdle(t) then [] else [t.issued[t.executed]]
    ensures !AtIdle(t) ==> s.executed < |s.issued| && s.issued[s.executed] == t.issued[t.executed]
  {
    var k := t.executed;
    assert t.issued[..k + 1] == t.issued[..k] + [t.issued[k]];
    ThinSnoc(t.issued[..k], t.issued[k]);
    ThinPrefix(t.issued, k + 1);
  }

  /** An idle wait never blocks: the stream has passed a stronger one. */
  lemma IdleIsOpen(t: State)
    requires Inv(t) && AtIdle(t)
    ensures Enabled(t, StreamStep)
  {
    var k, c := t.executed, t.issued[t.executed];
    assert WaitAt(t, k, c.flow, c.id);
    if c.id > 0 {
      var p := HighWaitAt(t, k, c.flow);
    }
  }

  lemma IdleAlike(s: State, t: State)
    requires Alike(s, t) && StreamsAlike(s, t) && AtIdle(t) && Enabled(t, StreamStep)
    ensures Alike(s, StreamExec(t)) && StreamsAlike(s, StreamExec(t))
  {
    NextThin(s, t);
  }

  lemma StreamIs(t: State)
    requires Enabled(t, StreamStep)
    ensures SimpleApply(t, StreamStep) == Apply(t, StreamStep) == StreamExec(t)
  {
  }

  lemma IdleSound(t: State)
    requires Inv(t) && Enabled(t, StreamStep)
    ensures Sound(StreamExec(t))
  {
    StreamKeeps(t);
  }

  lemma IdleExec(s: State, t: State)
    requires InStep(s, t) && AtIdle(t) && Enabled(t, StreamStep)
    ensures InStep(s, StreamExec(t))
  {
    Look(s, t);
    IdleAlike(s, t);
    IdleSound(t);
    Holds(StreamExec(t));
  }

  lemma IdleStep(s: State, t: State)
    requires InStep(s, t) && AtIdle(t)
    ensures Enabled(t, StreamStep) && InStep(s, SimpleApply(t, StreamStep))
  {
    Look(s, t);
    IdleIsOpen(t);
    StreamIs(t);
    IdleExec(s, t);
  }

  lemma RunAlike(s: State, t: State)
    requires Alike(s, t) && StreamsAlike(s, t) && Enabled(s, StreamStep) && Enabled(t, StreamStep) && !AtIdle(t)
    ensures Alike(StreamExec(s), StreamExec(t)) && StreamsAlike(StreamExec(s), StreamExec(t))
  {
    NextThin(s, t);
  }

  lemma StreamInStep(s: State, t: State)
    requires InStep(s, t) && !AtIdle(t) && (Enabled(s, StreamStep) || Enabled(t, StreamStep))
    requires t.executed < |t.issued|
    ensures Enabled(s, StreamStep) && Enabled(t, StreamStep)
    ensures InStep(Apply(s, StreamStep), Apply(t, StreamStep))
  {
    Look(s, t);
    NextThin(s, t);
    SameBlocked(s, t, t.issued[t.executed]);
    RunAlike(s, t);
    StreamKeeps(s);
    StreamKeeps(t);
  }

  // ---- whole runs -------------------------------------------------------------------------------------------

  /** A step of the eliding machine, looked into only where a fact is marked. */
  ghost predicate Goes(s: State, e: Step, u: State) {
    forall k {:trigger Marked(k)} :: Marked(k) ==> Enabled(s, e) && Permitted(s, e) && u == Apply(s, e)
  }

  /** A step of the simple machine, looked into only where a fact is marked. */
  ghost predicate SimpleGoes(t: State, e: Step, u: State) {
    forall k {:trigger Marked(k)} :: Marked(k) ==> Enabled(t, e) && Permitted(t, e) && u == SimpleApply(t, e)
  }

  lemma SnocRun(states: seq<State>, steps: seq<Step>, e: Step, u: State)
    requires Run(states, steps) && Goes(states[|steps|], e, u)
    ensures Run(states + [u], steps + [e])
  {
    var ss, es := states + [u], steps + [e];
    assert Marked(0);
    SnocTrace(states, steps, e, u);
    forall i {:trigger es[i]} | 0 <= i < |es| ensures Permitted(ss[i], es[i]) {
      assert ss[i] == states[i];
      if i < |steps| { assert es[i] == steps[i]; }
    }
  }

  lemma SnocSimple(states: seq<State>, steps: seq<Step>, e: Step, u: State)
    requires SimpleRun(states, steps) && SimpleGoes(states[|steps|], e, u)
    ensures SimpleRun(states + [u], steps + [e])
  {
    var ss, es := states + [u], steps + [e];
    assert Marked(0);
    forall i {:trigger es[i]} | 0 <= i < |es|
      ensures Enabled(ss[i], es[i]) && Permitted(ss[i], es[i]) && ss[i + 1] == SimpleApply(ss[i], es[i])
    {
      assert ss[i] == states[i];
      if i < |steps| { assert es[i] == steps[i] && ss[i + 1] == states[i + 1]; }
    }
  }

  lemma StartInStep()
    ensures InStep(INIT, INIT)
  {
    InitInv();
    assert INIT.issued[..INIT.executed] == [] && Thin([]) == [];
    assert Alike(INIT, INIT) && StreamsAlike(INIT, INIT);
  }

  /** Another step, unless it runs an idle wait. */
  function Seen(seen: seq<Step>, t: State, e: Step): (more: seq<Step>) {
    if e.StreamStep? && AtIdle(t) then seen else seen + [e]
  }

  /** The steps of a simple run without those that run an idle wait. */
  function Visible(states: seq<State>, steps: seq<Step>): (seen: seq<Step>)
    requires |states| == |steps| + 1
    decreases |steps|
  {
    if steps == [] then []
    else
      var n := |steps| - 1;
      Seen(Visible(states[..n + 1], steps[..n]), states[n], steps[n])
  }

  lemma VisibleSnoc(states: seq<State>, steps: seq<Step>, t: State, e: Step)
    requires |states| == |steps| + 1
    ensures Visible(states + [t], steps + [e]) == Seen(Visible(states, steps), states[|steps|], e)
  {
    assert (states + [t])[..|steps| + 1] == states && (steps + [e])[..|steps|] == steps;
  }

  lemma SimpleInit(ts: seq<State>, es: seq<Step>)
    requires SimpleRun(ts, es) && es != []
    ensures var n := |es| - 1; SimpleRun(ts[..n + 1], es[..n]) && SimpleGoes(ts[n], es[n], ts[n + 1])
  {
    var init := es[..|es| - 1];
    assert forall i :: 0 <= i < |init| ==> init[i] == es[i];
  }

  predicate Noted(k: int) { 0 <= k }

  /** A run of the eliding machine that ends in step with t, looked into only where a fact is noted. */
  ghost predicate Followed(states: seq<State>, steps: seq<Step>, t: State) {
    && |states| == |steps| + 1
    && forall k {:trigger Noted(k)} :: Noted(k) ==> Run(states, steps) && InStep(states[|steps|], t)
  }

  /** A step of the simple machine that does not run an idle wait is a step of the other. */
  lemma EitherStep(s: State, t: State, e: Step)
    requires InStep(s, t) && Enabled(t, e) && Permitted(t, e) && !(e.StreamStep? && AtIdle(t))
    ensures Enabled(s, e) && Permitted(s, e) && InStep(Apply(s, e), SimpleApply(t, e))
  {
    Look(s, t);
    AlikeLanes(s, t);
    if e.StreamStep? {
      StreamInStep(s, t);
    } else {
      CallInStep(s, t, e);
    }
  }

  lemma EitherGoes(s: State, t: State, e: Step, u: State) returns (v: State)
    requires InStep(s, t) && SimpleGoes(t, e, u) && !(e.StreamStep? && AtIdle(t))
    ensures Goes(s, e, v) && InStep(v, u)
  {
    assert Marked(0);
    EitherStep(s, t, e);
    v := Apply(s, e);
  }

  lemma FollowOther(states: seq<State>, seen: seq<Step>, t: State, e: Step, u: State) returns (longer: seq<State>)
    requires Followed(states, seen, t) && SimpleGoes(t, e, u) && !(e.StreamStep? && AtIdle(t))
    ensures Followed(longer, seen + [e], u)
  {
    assert Noted(0);
    var v := EitherGoes(states[|seen|], t, e, u);
    SnocRun(states, seen, e, v);
    longer := states + [v];
  }

  lemma FollowIdle(states: seq<State>, seen: seq<Step>, t: State, u: State)
    requires Followed(states, seen, t) && SimpleGoes(t, StreamStep, u) && AtIdle(t)
    ensures Followed(states, seen, u)
  {
    assert Noted(0);
    IdleStep(states[|seen|], t);
  }

  lemma FollowOne(states: seq<State>, seen: seq<Step>, t: State, e: Step, u: State) returns (longer: seq<State>)
    requires Followed(states, seen, t) && SimpleGoes(t, e, u)
    ensures Followed(longer, Seen(seen, t, e), u)
  {
    if e.StreamStep? && AtIdle(t) {
      FollowIdle(states, seen, t, u);
      longer := states;
    } else {
      longer := FollowOther(states, seen, t, e, u);
    }
  }

  lemma {:induction false} Following(ts: seq<State>, es: seq<Step>) returns (states: seq<State>)
    requires SimpleRun(ts, es)
    ensures Followed(states, Visible(ts, es), ts[|es|])
    decreases |es|
  {
    if es == [] {
      StartInStep();
      states := [INIT];
    } else {
      var n := |es| - 1;
      SimpleInit(ts, es);
      states := Following(ts[..n + 1], es[..n]);
      states := FollowOne(states, Visible(ts[..n + 1], es[..n]), ts[n], es[n], ts[n + 1]);
    }
  }

  /**
    Whatever schedule the machine that always waits runs on, the eliding machine runs on it too, leaving
    out the idle waits, and the two end in step.
   */
  lemma ElidingFollows(ts: seq<State>, es: seq<Step>) returns (states: seq<State>)
    requires SimpleRun(ts, es)
    ensures Run(states, Visible(ts, es)) && InStep(states[|states| - 1], ts[|es|])
  {
    states := Following(ts, es);
    assert Noted(0);
  }

  // ---- and the other way round ------------------------------------------------------------------------------

  /** A simple run that shows the given steps and ends in step with s, looked into only where a fact is noted. */
  ghost predicate Matched(s: State, steps: seq<Step>, ts: seq<State>, es: seq<Step>) {
    && |ts| == |es| + 1
    && forall k {:trigger Noted(k)} :: Noted(k) ==>
         SimpleRun(ts, es) && InStep(s, ts[|es|]) && Visible(ts, es) == steps
  }

  lemma IdleGoes(s: State, t: State) returns (u: State)
    requires InStep(s, t) && AtIdle(t)
    ensures Enabled(t, StreamStep) && u == StreamExec(t) && SimpleGoes(t, StreamStep, u) && InStep(s, u)
  {
    IdleStep(s, t);
    StreamIs(t);
    u := StreamExec(t);
  }

  lemma MatchIdle(s: State, steps: seq<Step>, ts: seq<State>, es: seq<Step>)
    requires Matched(s, steps, ts, es) && AtIdle(ts[|es|])
    ensures Enabled(ts[|es|], StreamStep)
    ensures Matched(s, steps, ts + [StreamExec(ts[|es|])], es + [StreamStep])
  {
    var t := ts[|es|];
    assert Noted(0);
    var u := IdleGoes(s, t);
    SnocSimple(ts, es, StreamStep, u);
    VisibleSnoc(ts, es, u, StreamStep);
  }

  /** The simple stream runs through the idle waits in front of it. */
  lemma {:induction false} PassIdle(s: State, steps: seq<Step>, ts: seq<State>, es: seq<Step>)
    returns (us: seq<State>, fs: seq<Step>)
    requires Matched(s, steps, ts, es)
    ensures Matched(s, steps, us, fs) && !AtIdle(us[|fs|])
    decreases |ts[|es|].issued| - ts[|es|].executed
  {
    if AtIdle(ts[|es|]) {
      MatchIdle(s, steps, ts, es);
      us, fs := PassIdle(s, steps, ts + [StreamExec(ts[|es|])], es + [StreamStep]);
    } else {
      us, fs := ts, es;
    }
  }

  lemma NotDry(s: State, t: State)
    requires StreamsAlike(s, t) && s.executed < |s.issued|
    ensures t.executed < |t.issued|
  {
    assert t.issued[..|t.issued|] == t.issued;
  }

  /** A step of the eliding machine, with no idle wait in front of the stream, is one of the simple machine. */
  lemma OtherStep(s: State, t: State, e: Step)
    requires InStep(s, t) && Enabled(s, e) && Permitted(s, e) && !AtIdle(t)
    ensures Enabled(t, e) && Permitted(t, e) && InStep(Apply(s, e), SimpleApply(t, e))
  {
    if e.StreamStep? {
      Look(s, t);
      NotDry(s, t);
      StreamInStep(s, t);
    } else {
      CallInStep(s, t, e);
    }
  }

  lemma OtherGoes(s: State, t: State, e: Step, u: State) returns (v: State)
    requires InStep(s, t) && !AtIdle(t) && Goes(s, e, u)
    ensures SimpleGoes(t, e, v) && InStep(u, v)
  {
    assert Marked(0);
    OtherStep(s, t, e);
    v := SimpleApply(t, e);
  }

  lemma RunInit(states: seq<State>, steps: seq<Step>)
    requires Run(states, steps) && steps != []
    ensures var n := |steps| - 1; Run(states[..n + 1], steps[..n]) && Goes(states[n], steps[n], states[n + 1])
  {
    var init := steps[..|steps| - 1];
    assert forall i :: 0 <= i < |init| ==> init[i] == steps[i];
  }

  lemma MatchStep(s: State, steps: seq<Step>, ts: seq<State>, es: seq<Step>, e: Step, u: State)
    returns (us: seq<State>)
    requires Matched(s, steps, ts, es) && !AtIdle(ts[|es|]) && Goes(s, e, u)
    ensures Matched(u, steps + [e], us, es + [e])
  {
    assert Noted(0);
    var v := OtherGoes(s, ts[|es|], e, u);
    SnocSimple(ts, es, e, v);
    VisibleSnoc(ts, es, v, e);
    us := ts + [v];
  }

  lemma {:induction false} Matching(states: seq<State>, steps: seq<Step>) returns (ts: seq<State>, es: seq<Step>)
    requires Run(states, steps)
    ensures Matched(states[|steps|], steps, ts, es)
    decreases |steps|
  {
    if steps == [] {
      StartInStep();
      ts, es := [INIT], [];
    } else {
      var n := |steps| - 1;
      RunInit(states, steps);
      ts, es := Matching(states[..n + 1], steps[..n]);
      ts, es := PassIdle(states[n], steps[..n], ts, es);
      ts := MatchStep(states[n], steps[..n], ts, es, steps[n], states[n + 1]);
      es := es + [steps[n]];
      assert steps == steps[..n] + [steps[n]];
    }
  }

  /**
    Whatever schedule the eliding machine runs on, the machine that always waits runs on it too, with idle
    waits in between, and the two end in step.
   */
  lemma SimpleFollows(states: seq<State>, steps: seq<Step>) returns (ts: seq<State>, es: seq<Step>)
    requires Run(states, steps)
    ensures SimpleRun(ts, es) && Visible(ts, es) == steps && InStep(states[|steps|], ts[|es|])
  {
    ts, es := Matching(states, steps);
    assert Noted(0);
  }
}
