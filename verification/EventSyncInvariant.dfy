/** The invariant of the event-sync machine and its preservation by every permitted step. */
module EventSyncInvariant {
  import opened EventSync

  ghost predicate Increasing(q: seq<nat>) {
    forall i, j :: 0 <= i < j < |q| ==> q[i] < q[j]
  }

  /** One flow: ids travel in increasing order and last_tracked_id is the largest flagged polled id. */
  ghost predicate LaneOk(l: Lane, hi: nat) {
    && Increasing(Line(l))
    && (forall x :: x in Line(l) ==> 1 <= x <= hi)
    && (l.lastTracked == 0 || (l.lastTracked in l.polled && l.lastTracked in l.triggered))
    && (forall x :: x in l.polled && x in l.triggered ==> x <= l.lastTracked)
    && (forall x :: x in l.triggered ==> x in Line(l) && x <= l.lastPostedTracked)
    && (l.lastPostedTracked == 0 || l.lastPostedTracked in l.triggered)
  }

  predicate TriggerAt(s: State, q: int, x: int) {
    0 <= q < |s.issued| && s.issued[q].Trigger? && s.issued[q].id == x
  }

  predicate WaitAt(s: State, p: int, f: Flow, w: int) {
    0 <= p < |s.issued| && s.issued[p].WaitTracked? && s.issued[p].flow == f && s.issued[p].id == w
  }

  /** Trigger writes sit on the stream in id order, one per deferred send, and precede the hand-over. */
  ghost predicate TriggersOk(s: State) {
    && (forall q, x :: TriggerAt(s, q, x) ==> x in Line(s.tx) && x <= s.lastPostedTrigger)
    && (forall q, x, r, y :: TriggerAt(s, q, x) && TriggerAt(s, r, y) && q < r ==> x < y)
    && (forall q, x :: TriggerAt(s, q, x) && q < s.executed ==> x <= s.lastTrigger)
    && (s.lastTrigger == 0 || exists q :: q < s.executed && TriggerAt(s, q, s.lastTrigger))
    && (forall x :: x in s.tx.posted ==> exists q :: TriggerAt(s, q, x))
    && (forall q, x :: TriggerAt(s, q, x) && x in Handed(s.tx) ==> q < s.executed)
  }

  /** Stream waits: passed ones are satisfied, and none was queued ahead of its own trigger. */
  ghost predicate WaitsOk(s: State) {
    && (forall p, f, w :: WaitAt(s, p, f, w) && p < s.executed ==> w <= LaneOf(s, f).lastTracked)
    && (forall p, f, w :: WaitAt(s, p, f, w) ==> w in LaneOf(s, f).triggered)
    && (forall f :: LaneOf(s, f).lastPostedTracked == 0
          || exists p :: WaitAt(s, p, f, LaneOf(s, f).lastPostedTracked))
    && (forall p, q, w :: WaitAt(s, p, TX, w) && TriggerAt(s, q, w) ==> q < p)
  }

  ghost predicate CountersOk(s: State) {
    && s.executed <= |s.issued|
    && s.lastPostedTrigger <= s.lastReqId
    && (forall x :: x in s.prepared ==> 1 <= x <= s.lastReqId && x !in Line(s.tx))
    && s.rx.posted == []
    && !s.fault
  }

  ghost predicate Inv(s: State) {
    && LaneOk(s.tx, s.lastReqId)
    && LaneOk(s.rx, s.lastReqId)
    && TriggersOk(s)
    && WaitsOk(s)
    && CountersOk(s)
  }

  lemma InitInv()
    ensures Inv(INIT)
  {
    assert forall f :: LaneOf(INIT, f) == EMPTY_LANE;
  }

  // ---- lanes ---------------------------------------------------------------------------------

  /** The polled ids are the front of the line: whatever is at most a polled id has been polled. */
  lemma PolledDownward(l: Lane, x: nat, y: nat)
    requires Increasing(Line(l))
    requires x in Line(l) && y in l.polled && x <= y
    ensures x in l.polled
  {
    var i :| 0 <= i < |Line(l)| && Line(l)[i] == x;
    var j :| 0 <= j < |l.polled| && l.polled[j] == y;
    assert Line(l)[j] == y;
    if j < i { assert false; }
    assert l.polled[i] == x;
  }

  lemma LineAppend(l: Lane, id: nat, hi: nat)
    requires LaneOk(l, hi) && Above(id, Line(l)) && 1 <= id <= hi
    ensures var m := l.(posted := l.posted + [id]); LaneOk(m, hi) && Line(m) == Line(l) + [id]
  {
    var m := l.(posted := l.posted + [id]);
    assert Line(m) == Line(l) + [id];
    assert forall i :: 0 <= i < |Line(l)| ==> Line(l)[i] in Line(l);
  }

  /** Handing a fresh id straight to the NIC keeps the line sorted when nothing waits behind it. */
  lemma NicAppend(l: Lane, id: nat, hi: nat)
    requires LaneOk(l, hi) && Above(id, Line(l)) && 1 <= id <= hi && l.posted == []
    ensures var m := l.(nic := l.nic + [id]); LaneOk(m, hi) && Line(m) == Line(l) + [id]
  {
    var m := l.(nic := l.nic + [id]);
    assert Line(m) == Line(l) + [id];
    assert forall i :: 0 <= i < |Line(l)| ==> Line(l)[i] in Line(l);
  }

  lemma LanePostOk(l: Lane, hi: nat)
    requires LaneOk(l, hi) && l.posted != []
    ensures LaneOk(LanePost(l), hi) && Line(LanePost(l)) == Line(l)
    ensures Handed(LanePost(l)) == Handed(l) + [l.posted[0]]
  {
    var m := LanePost(l);
    assert l.posted == [l.posted[0]] + l.posted[1..];
    assert Line(m) == Line(l);
  }

  lemma LaneCompleteOk(l: Lane, hi: nat)
    requires LaneOk(l, hi) && l.nic != []
    ensures LaneOk(LaneComplete(l), hi) && Line(LaneComplete(l)) == Line(l)
    ensures Handed(LaneComplete(l)) == Handed(l)
  {
    var m := LaneComplete(l);
    assert l.nic == [l.nic[0]] + l.nic[1..];
    assert Handed(m) == Handed(l);
  }

  /** Polling in order: the next completion is above every polled id, so the assertion holds. */
  lemma LanePollOk(l: Lane, hi: nat)
    requires LaneOk(l, hi) && l.cq != []
    ensures LaneOk(LanePoll(l), hi) && Line(LanePoll(l)) == Line(l)
    ensures Handed(LanePoll(l)) == Handed(l)
    ensures l.lastTracked < l.cq[0] && l.lastTracked <= LanePoll(l).lastTracked
  {
    var m := LanePoll(l);
    var id := l.cq[0];
    assert l.cq == [id] + l.cq[1..];
    assert Handed(m) == Handed(l);
    assert Line(l)[|l.polled|] == id;
    forall x | x in l.polled ensures x < id {
      var j :| 0 <= j < |l.polled| && l.polled[j] == x;
      assert Line(l)[j] == x;
    }
    assert id in Line(l);
  }

  // ---- host calls ------------------------------------------------------------------------------

  lemma FreshKeeps(s: State)
    requires Inv(s)
    ensures Inv(Fresh(s))
    ensures Above(s.lastReqId + 1, Line(s.tx)) && Above(s.lastReqId + 1, Line(s.rx))
  {
    var t := Fresh(s);
    assert forall f :: LaneOf(t, f) == LaneOf(s, f);
    assert forall q, x :: TriggerAt(t, q, x) <==> TriggerAt(s, q, x);
    assert forall p, f, w :: WaitAt(t, p, f, w) <==> WaitAt(s, p, f, w);
  }

  /** Queueing one more command leaves all earlier positions alone. */
  lemma QueueAt(s: State, t: State, c: Cmd)
    requires t.issued == s.issued + [c]
    ensures forall q, x :: TriggerAt(t, q, x) <==> TriggerAt(s, q, x) || (q == |s.issued| && c.Trigger? && c.id == x)
    ensures forall p, f, w ::
              WaitAt(t, p, f, w) <==> WaitAt(s, p, f, w) || (p == |s.issued| && c.WaitTracked? && c.flow == f && c.id == w)
  {
  }

  lemma AcceptTriggers(s: State, id: nat)
    requires TriggersOk(s) && s.executed <= |s.issued|
    requires Above(id, Line(s.tx)) && s.lastPostedTrigger < id
    ensures TriggersOk(Accept(s, id))
  {
    var t := Accept(s, id);
    QueueAt(s, t, Trigger(id));
    assert TriggerAt(t, |s.issued|, id);
    assert Handed(t.tx) == Handed(s.tx) && Line(t.tx) == Line(s.tx) + [id];
    assert forall x :: x in Handed(s.tx) ==> x in Line(s.tx);
    if s.lastTrigger != 0 {
      var q :| q < s.executed && TriggerAt(s, q, s.lastTrigger);
      assert TriggerAt(t, q, t.lastTrigger);
    }
    forall x | x in t.tx.posted ensures exists q :: TriggerAt(t, q, x) {
      if x in s.tx.posted {
        var q :| TriggerAt(s, q, x);
        assert TriggerAt(t, q, x);
      }
    }
  }

  lemma AcceptWaits(s: State, id: nat)
    requires WaitsOk(s) && s.executed <= |s.issued| && id !in s.tx.triggered
    ensures WaitsOk(Accept(s, id))
  {
    var t := Accept(s, id);
    QueueAt(s, t, Trigger(id));
    assert forall f :: LaneOf(t, f).lastPostedTracked == LaneOf(s, f).lastPostedTracked
                    && LaneOf(t, f).lastTracked == LaneOf(s, f).lastTracked
                    && LaneOf(t, f).triggered == LaneOf(s, f).triggered;
  }

  lemma AcceptKeeps(s: State, id: nat)
    requires Inv(s)
    requires 1 <= id <= s.lastReqId && Above(id, Line(s.tx)) && s.lastPostedTrigger < id
    ensures Inv(Accept(s, id)) && id in Line(Accept(s, id).tx) && id !in Accept(s, id).tx.polled
  {
    LineAppend(s.tx, id, s.lastReqId);
    AcceptTriggers(s, id);
    AcceptWaits(s, id);
    assert forall x :: x in s.tx.polled ==> x in Line(s.tx);
  }

  lemma TrackTriggers(s: State, t: State, f: Flow, id: nat)
    requires TriggersOk(s) && s.executed <= |s.issued|
    requires t == TrackWait(s, f, id) && LaneOf(s, f).lastPostedTracked < id
    ensures TriggersOk(t)
  {
    QueueAt(s, t, WaitTracked(f, id));
    assert forall q, x :: TriggerAt(t, q, x) <==> TriggerAt(s, q, x);
    assert Line(t.tx) == Line(s.tx) && Handed(t.tx) == Handed(s.tx) && t.tx.posted == s.tx.posted;
  }

  lemma TrackWaits(s: State, t: State, f: Flow, id: nat)
    requires WaitsOk(s) && s.executed <= |s.issued|
    requires t == TrackWait(s, f, id) && LaneOf(s, f).lastPostedTracked < id
    ensures WaitsOk(t)
  {
    QueueAt(s, t, WaitTracked(f, id));
    assert WaitAt(t, |s.issued|, f, id);
    assert LaneOf(t, f).triggered == LaneOf(s, f).triggered + {id};
    assert LaneOf(t, f).lastTracked == LaneOf(s, f).lastTracked;
    assert forall g :: g != f ==> LaneOf(t, g) == LaneOf(s, g);
  }

  lemma TrackLane(l: Lane, hi: nat, id: nat, mark: nat)
    requires LaneOk(l, hi) && id in Line(l) && id !in l.polled && id <= mark && l.lastPostedTracked <= mark
    requires mark == id || mark == l.lastPostedTracked
    ensures LaneOk(l.(lastPostedTracked := mark, triggered := l.triggered + {id}), hi)
  {
    assert Line(l.(lastPostedTracked := mark, triggered := l.triggered + {id})) == Line(l);
  }

  lemma TrackKeeps(s: State, f: Flow, id: nat)
    requires Inv(s)
    requires id in Line(LaneOf(s, f)) && id !in LaneOf(s, f).polled
    ensures Inv(TrackWait(s, f, id))
  {
    var l := LaneOf(s, f);
    if l.lastPostedTracked < id {
      TrackLane(l, s.lastReqId, id, id);
      TrackTriggers(s, TrackWait(s, f, id), f, id);
      TrackWaits(s, TrackWait(s, f, id), f, id);
    }
  }

  lemma LaunchKeeps(s: State, tag: nat)
    requires Inv(s)
    ensures Inv(Queue(s, Kernel(tag)))
  {
    var t := Queue(s, Kernel(tag));
    QueueAt(s, t, Kernel(tag));
    assert forall f :: LaneOf(t, f) == LaneOf(s, f);
    assert forall q, x :: TriggerAt(t, q, x) <==> TriggerAt(s, q, x);
    assert forall p, f, w :: WaitAt(t, p, f, w) <==> WaitAt(s, p, f, w);
  }

  /** m is what l becomes when ids move forward in their queues. */
  ghost predicate MovesOn(l: Lane, m: Lane) {
    && m.triggered == l.triggered && m.lastPostedTracked == l.lastPostedTracked
    && l.lastTracked <= m.lastTracked
    && forall x :: x in Line(l) ==> x in Line(m)
  }

  lemma MoveTriggers(s: State, m: Lane)
    requires TriggersOk(s) && MovesOn(s.tx, m)
    requires forall x :: x in m.posted ==> x in s.tx.posted
    requires forall q, x :: TriggerAt(s, q, x) && x in Handed(m) ==> q < s.executed
    ensures TriggersOk(s.(tx := m))
  {
    var t := s.(tx := m);
    assert forall q, x :: TriggerAt(t, q, x) <==> TriggerAt(s, q, x);
    if s.lastTrigger != 0 {
      var q :| q < s.executed && TriggerAt(s, q, s.lastTrigger);
      assert TriggerAt(t, q, t.lastTrigger);
    }
    forall x | x in m.posted ensures exists q :: TriggerAt(t, q, x) {
      var q :| TriggerAt(s, q, x);
      assert TriggerAt(t, q, x);
    }
  }

  lemma MoveWaits(s: State, f: Flow, m: Lane)
    requires WaitsOk(s) && MovesOn(LaneOf(s, f), m)
    ensures WaitsOk(WithLane(s, f, m))
  {
    var t := WithLane(s, f, m);
    assert forall q, x :: TriggerAt(t, q, x) <==> TriggerAt(s, q, x);
    assert forall p, g, w :: WaitAt(t, p, g, w) <==> WaitAt(s, p, g, w);
    assert LaneOf(t, f) == m && forall g :: g != f ==> LaneOf(t, g) == LaneOf(s, g);
  }

  /** A lane whose queues moved ids forward keeps the stream facts, given what its hand-over implies. */
  lemma LaneChangeKeeps(s: State, f: Flow, m: Lane)
    requires Inv(s)
    requires LaneOk(m, s.lastReqId) && MovesOn(LaneOf(s, f), m)
    requires f.RX? ==> m.posted == []
    requires f.TX? ==>
      && (forall x :: x in s.prepared ==> x !in Line(m))
      && (forall x :: x in m.posted ==> x in s.tx.posted)
      && (forall q, x :: TriggerAt(s, q, x) && x in Handed(m) ==> q < s.executed)
    ensures Inv(WithLane(s, f, m))
  {
    MoveWaits(s, f, m);
    if f.TX? {
      MoveTriggers(s, m);
    } else {
      var t := s.(rx := m);
      assert forall q, x :: TriggerAt(t, q, x) <==> TriggerAt(s, q, x);
    }
  }

  lemma ImmediateKeeps(s: State, f: Flow)
    requires Inv(s)
    requires f.TX? ==> s.tx.posted == []
    ensures var l := LaneOf(s, f);
            Inv(WithLane(Fresh(s), f, l.(nic := l.nic + [s.lastReqId + 1])))
  {
    FreshKeeps(s);
    var id := s.lastReqId + 1;
    var l := LaneOf(s, f);
    var m := l.(nic := l.nic + [id]);
    NicAppend(l, id, id);
    if f.TX? {
      forall q, x | TriggerAt(Fresh(s), q, x) && x in Handed(m) ensures q < s.executed {
        assert TriggerAt(s, q, x) && x in Line(l);
        assert Line(l) == Handed(l);
      }
    }
    LaneChangeKeeps(Fresh(s), f, m);
  }

  // ---- stream, NIC, progress engine ------------------------------------------------------------

  lemma StreamTriggers(s: State)
    requires TriggersOk(s) && Enabled(s, StreamStep)
    ensures TriggersOk(StreamExec(s))
  {
    var t := StreamExec(s);
    assert forall q, x :: TriggerAt(t, q, x) <==> TriggerAt(s, q, x);
    if s.issued[s.executed].Trigger? {
      assert TriggerAt(t, s.executed, t.lastTrigger);
    } else if s.lastTrigger != 0 {
      var q :| q < s.executed && TriggerAt(s, q, s.lastTrigger);
      assert q < t.executed && TriggerAt(t, q, t.lastTrigger);
    }
  }

  lemma StreamWaits(s: State)
    requires WaitsOk(s) && Enabled(s, StreamStep)
    ensures WaitsOk(StreamExec(s))
  {
    var t := StreamExec(s);
    assert forall q, x :: TriggerAt(t, q, x) <==> TriggerAt(s, q, x);
    assert forall p, f, w :: WaitAt(t, p, f, w) <==> WaitAt(s, p, f, w);
    assert forall f :: LaneOf(t, f) == LaneOf(s, f);
  }

  lemma StreamKeeps(s: State)
    requires Inv(s) && Enabled(s, StreamStep)
    ensures Inv(StreamExec(s))
  {
    StreamTriggers(s);
    StreamWaits(s);
  }

  /** A posted id at most last_trigger_id has had its trigger write executed. */
  lemma TriggeredIsExecuted(s: State, q: nat, x: nat)
    requires Inv(s) && TriggerAt(s, q, x) && x <= s.lastTrigger
    ensures q < s.executed
  {
    assert x in Line(s.tx);
    var r :| r < s.executed && TriggerAt(s, r, s.lastTrigger);
    if s.executed <= q { assert false; }
  }

  lemma NicPostKeeps(s: State)
    requires Inv(s) && Enabled(s, NicPost(true))
    ensures Inv(s.(tx := LanePost(s.tx)))
  {
    LanePostOk(s.tx, s.lastReqId);
    var m := LanePost(s.tx);
    forall q, x | TriggerAt(s, q, x) && x in Handed(m) ensures q < s.executed {
      if x !in Handed(s.tx) { TriggeredIsExecuted(s, q, x); }
    }
    LaneChangeKeeps(s, TX, m);
  }

  lemma QueueStepKeeps(s: State, e: Step)
    requires Inv(s) && Enabled(s, e) && (e.NicComplete? || e.Poll?)
    ensures Inv(Apply(s, e))
  {
    var l := LaneOf(s, e.flow);
    assert LaneOk(l, s.lastReqId);
    if e.NicComplete? {
      LaneCompleteOk(l, s.lastReqId);
      LaneChangeKeeps(s, e.flow, LaneComplete(l));
    } else {
      LanePollOk(l, s.lastReqId);
      LaneChangeKeeps(s, e.flow, LanePoll(l));
      assert Apply(s, e) == WithLane(s, e.flow, LanePoll(l));
    }
  }

  lemma PostCallKeeps(s: State, e: Step)
    requires Inv(s) && Enabled(s, e) && Permitted(s, e) && (e.IsendPost? || e.SendPost?)
    ensures Inv(Apply(s, e))
  {
    if s.lastPostedTrigger < e.id {
      assert e.id <= s.lastReqId && 1 <= e.id by {
        assert forall x :: x in s.tx.posted ==> x in Line(s.tx);
      }
      AcceptKeeps(s, e.id);
      if e.SendPost? { TrackKeeps(Accept(s, e.id), TX, e.id); }
    }
  }

  lemma PrepareKeeps(s: State)
    requires Inv(s)
    ensures Inv(Fresh(s).(prepared := s.prepared + {s.lastReqId + 1}))
  {
    FreshKeeps(s);
    var u := Fresh(s);
    var t := u.(prepared := s.prepared + {s.lastReqId + 1});
    assert forall f :: LaneOf(t, f) == LaneOf(u, f);
    assert forall q, x :: TriggerAt(t, q, x) <==> TriggerAt(u, q, x);
    assert forall p, f, w :: WaitAt(t, p, f, w) <==> WaitAt(u, p, f, w);
  }

  /** Stream sends that draw their id and are accepted in one call. */
  lemma DirectIsendKeeps(s: State, id: nat)
    requires Inv(s) && id == s.lastReqId + 1
    ensures Inv(Accept(Fresh(s), id))
  {
    FreshKeeps(s);
    AcceptKeeps(Fresh(s), id);
  }

  lemma DirectSendKeeps(s: State, id: nat)
    requires Inv(s) && id == s.lastReqId + 1
    ensures Inv(TrackWait(Accept(Fresh(s), id), TX, id))
  {
    DirectIsendKeeps(s, id);
    TrackKeeps(Accept(Fresh(s), id), TX, id);
  }

  predicate HostCall(e: Step) {
    !(e.StreamStep? || e.NicPost? || e.NicComplete? || e.Poll?)
  }

  lemma SendCallKeeps(s: State, e: Step)
    requires Inv(s) && Enabled(s, e) && (e.IsendOnStream? || e.SendOnStream? || e.SendPrepare?)
    ensures Inv(Apply(s, e))
  {
    match e
    case SendPrepare => PrepareCallKeeps(s);
    case IsendOnStream => IsendCallKeeps(s);
    case SendOnStream => SendOnKeeps(s);
  }

  lemma PrepareCallKeeps(s: State)
    requires Inv(s) && Enabled(s, SendPrepare)
    ensures Inv(Apply(s, SendPrepare))
  {
    PrepareKeeps(s);
  }

  lemma IsendCallKeeps(s: State)
    requires Inv(s) && Enabled(s, IsendOnStream)
    ensures Inv(Apply(s, IsendOnStream))
  {
    IsendIs(s);
    DirectIsendKeeps(s, s.lastReqId + 1);
  }

  lemma SendOnKeeps(s: State)
    requires Inv(s) && Enabled(s, SendOnStream)
    ensures Inv(Apply(s, SendOnStream))
  {
    SendIs(s);
    DirectSendKeeps(s, s.lastReqId + 1);
  }

  lemma IsendIs(s: State)
    requires Enabled(s, IsendOnStream)
    ensures Apply(s, IsendOnStream) == Accept(Fresh(s), s.lastReqId + 1)
  {
  }

  lemma SendIs(s: State)
    requires Enabled(s, SendOnStream)
    ensures Apply(s, SendOnStream) == TrackWait(Accept(Fresh(s), s.lastReqId + 1), TX, s.lastReqId + 1)
  {
  }

  /** An immediate call puts the id it draws on the NIC's queue of its flow. */
  lemma ImmediateIs(s: State, e: Step, f: Flow)
    requires Enabled(s, e) && (e.Irecv? || e.IsendNow?) && (f.RX? <==> e.Irecv?)
    ensures Apply(s, e) == WithLane(Fresh(s), f, LaneOf(s, f).(nic := LaneOf(s, f).nic + [s.lastReqId + 1]))
  {
  }

  lemma ImmediateCallKeeps(s: State, e: Step)
    requires Inv(s) && Enabled(s, e) && Permitted(s, e) && (e.Irecv? || e.IsendNow?)
    ensures Inv(Apply(s, e))
  {
    var f := if e.Irecv? then RX else TX;
    ImmediateIs(s, e, f);
    ImmediateKeeps(s, f);
  }

  lemma StreamCallKeeps(s: State, e: Step)
    requires Inv(s) && Enabled(s, e) && Permitted(s, e) && (e.WaitOnStream? || e.Launch?)
    ensures Inv(Apply(s, e))
  {
    if e.Launch? {
      LaunchKeeps(s, e.tag);
    } else if e.id !in LaneOf(s, e.flow).polled {
      TrackKeeps(s, e.flow, e.id);
    }
  }

  lemma HostKeeps(s: State, e: Step)
    requires Inv(s) && Enabled(s, e) && Permitted(s, e) && HostCall(e)
    ensures Inv(Apply(s, e))
  {
    if e.IsendPost? || e.SendPost? { PostCallKeeps(s, e); }
    else if e.PutNowait? { FreshKeeps(s); }
    else if e.Irecv? || e.IsendNow? { ImmediateCallKeeps(s, e); }
    else if e.WaitOnStream? || e.Launch? { StreamCallKeeps(s, e); }
    else { SendCallKeeps(s, e); }
  }

  lemma EngineKeeps(s: State, e: Step)
    requires Inv(s) && Enabled(s, e) && !HostCall(e)
    ensures Inv(Apply(s, e))
  {
    match e
    case StreamStep => StreamKeeps(s);
    case NicPost(ok) => if ok { NicPostKeeps(s); }
    case NicComplete(_) => QueueStepKeeps(s, e);
    case Poll(_) => QueueStepKeeps(s, e);
  }

  /** Every permitted step, by the host, the stream, the NIC or the progress engine, keeps the invariant. */
  lemma StepKeeps(s: State, e: Step)
    requires Inv(s) && Enabled(s, e) && Permitted(s, e)
    ensures Inv(Apply(s, e))
  {
    if HostCall(e) { HostKeeps(s, e); } else { EngineKeeps(s, e); }
  }

  /** What is on the posted list was posted: posting it again is refused. */
  lemma PostedBelow(s: State, id: nat)
    requires Inv(s)
    ensures id in s.tx.posted ==> id <= s.lastPostedTrigger
  {
    if id in s.tx.posted {
      var q :| TriggerAt(s, q, id);
    }
  }

  lemma {:induction false} DisciplinedKeeps(states: seq<State>, steps: seq<Step>, k: nat)
    requires Disciplined(states, steps) && Inv(states[0]) && k < |states|
    ensures Inv(states[k])
  {
    if k > 0 {
      DisciplinedKeeps(states, steps, k - 1);
      StepKeeps(states[k - 1], steps[k - 1]);
    }
  }

  /** Every state of every run satisfies the invariant. */
  lemma RunInv(states: seq<State>, steps: seq<Step>, k: nat)
    requires Run(states, steps) && k < |states|
    ensures Inv(states[k])
  {
    InitInv();
    DisciplinedKeeps(states, steps, k);
  }
}
