/**
  The guard of EventSyncOrder is exact: a call that breaks it can be caught out by calls in order and
  steps of the stream, the NIC and the progress engine.
 */
module EventSyncExact {
  import opened EventSync
  import opened EventSyncInvariant
  import opened EventSyncTheorems
  import opened EventSyncOrder
  import opened ProgressSpec

  /** A continuation of s that makes call e first and is in order from then on. */
  ghost predicate Continues(s: State, e: Step, states: seq<State>, steps: seq<Step>) {
    && Trace(states, steps) && |steps| > 0 && states[0] == s && steps[0] == e
    && forall i {:trigger steps[i]} :: 0 < i < |steps| ==> InOrder(states[i], steps[i])
  }

  ghost predicate SafeCall(s: State, e: Step) {
    forall states: seq<State>, steps: seq<Step> :: Continues(s, e, states, steps) ==> Honoured(states, steps)
  }

  lemma InOrderSafe(s: State, e: Step)
    requires Loose(s) && InOrder(s, e)
    ensures SafeCall(s, e)
  {
    forall states: seq<State>, steps: seq<Step> | Continues(s, e, states, steps) ensures Honoured(states, steps) {
      TolerantSafety(states, steps);
    }
  }

  // ---- letting everything but the posted list run ----------------------------------------------------------

  /** The lane once all handed-over requests have completed and been polled. */
  function Final(l: Lane): (m: Lane) {
    l.(nic := [], cq := [], polled := Handed(l), lastTracked := LastFlagged(l.cq + l.nic, l.triggered, l.lastTracked))
  }

  lemma {:induction false} CompleteAll(s: State, f: Flow)
    ensures var l := LaneOf(s, f); Leads(s, WithLane(s, f, l.(nic := [], cq := l.cq + l.nic)))
    decreases |LaneOf(s, f).nic|
  {
    var l := LaneOf(s, f);
    LeadsHere(s);
    if l.nic == [] {
      assert l.cq + l.nic == l.cq;
    } else {
      var m := LaneComplete(l);
      var t := WithLane(s, f, m);
      LeadsOn(s, s, NicComplete(f));
      CompleteAll(t, f);
      assert m.cq + m.nic == l.cq + l.nic;
      LeadsBoth(s, t, WithLane(t, f, m.(nic := [], cq := m.cq + m.nic)));
    }
  }

  lemma RushLane(s: State, f: Flow) returns (t: State)
    ensures Leads(s, t) && t == WithLane(s, f, Final(LaneOf(s, f))).(fault := t.fault)
  {
    var l := LaneOf(s, f);
    var m := l.(nic := [], cq := l.cq + l.nic);
    var u := WithLane(s, f, m);
    CompleteAll(s, f);
    PollManyLeads(u, f, |m.cq|);
    PollManyMoves(u, f, |m.cq|);
    t := PollMany(u, f, |m.cq|);
    LeadsBoth(s, u, t);
    assert m.cq[..|m.cq|] == m.cq && m.polled + m.cq == Handed(l);
  }

  /** Every queued wait is for a flagged request, and no flag is above what the lanes will report. */
  ghost predicate WaitsFlagged(s: State) {
    forall p, f, w :: WaitAt(s, p, f, w) ==> w in LaneOf(s, f).triggered
  }

  ghost predicate FlagsPass(s: State) {
    forall f: Flow, w: nat :: w in LaneOf(s, f).triggered ==> w <= Final(LaneOf(s, f)).lastTracked
  }

  /** last_trigger_id is the largest trigger written so far. */
  ghost predicate TriggersRise(s: State) {
    && (forall q, x, r, y :: TriggerAt(s, q, x) && TriggerAt(s, r, y) && q < r ==> x < y)
    && (forall q, x :: TriggerAt(s, q, x) && q < s.executed ==> x <= s.lastTrigger)
  }

  lemma StreamRises(s: State)
    requires TriggersRise(s) && Enabled(s, StreamStep)
    ensures TriggersRise(StreamExec(s))
  {
    var c := s.issued[s.executed];
    assert forall q, x :: TriggerAt(StreamExec(s), q, x) <==> TriggerAt(s, q, x);
    assert c.Trigger? ==> TriggerAt(s, s.executed, c.id);
  }

  lemma {:induction false} RushStream(s: State) returns (t: State)
    requires s.executed <= |s.issued|
    requires forall p, f, w :: WaitAt(s, p, f, w) ==> w <= LaneOf(s, f).lastTracked
    ensures Leads(s, t) && t == s.(executed := |s.issued|, lastTrigger := t.lastTrigger)
    ensures TriggersRise(s) ==> TriggersRise(t)
    decreases |s.issued| - s.executed
  {
    LeadsHere(s);
    if s.executed == |s.issued| {
      t := s;
    } else {
      var c := s.issued[s.executed];
      assert !Blocked(s, c) by {
        if c.WaitTracked? { assert WaitAt(s, s.executed, c.flow, c.id); }
      }
      var u := Apply(s, StreamStep);
      LeadsOn(s, s, StreamStep);
      if TriggersRise(s) { StreamRises(s); }
      assert forall p, f, w :: WaitAt(u, p, f, w) ==> WaitAt(s, p, f, w) && LaneOf(u, f) == LaneOf(s, f);
      t := RushStream(u);
      LeadsBoth(s, u, t);
    }
  }

  /** Without handing over another posted send, the stream can run through all that is queued. */
  lemma Rush(s: State) returns (t: State)
    requires s.executed <= |s.issued| && WaitsFlagged(s) && FlagsPass(s)
    ensures Leads(s, t)
    ensures t == s.(executed := |s.issued|, tx := Final(s.tx), rx := Final(s.rx), lastTrigger := t.lastTrigger, fault := t.fault)
    ensures TriggersRise(s) ==> TriggersRise(t)
  {
    var a := RushLane(s, TX);
    var b := RushLane(a, RX);
    LeadsBoth(s, a, b);
    forall p, f, w | WaitAt(b, p, f, w) ensures w <= LaneOf(b, f).lastTracked {
      assert WaitAt(s, p, f, w) && LaneOf(b, f) == Final(LaneOf(s, f));
    }
    assert TriggersRise(s) ==> TriggersRise(b) by {
      assert forall q, x :: TriggerAt(b, q, x) <==> TriggerAt(s, q, x);
    }
    t := RushStream(b);
    LeadsBoth(s, b, t);
  }

  // ---- a call out of order can be caught out ----------------------------------------------------------------

  lemma ContinueOne(s: State, e: Step, states: seq<State>, steps: seq<Step>, next: Step)
    requires Continues(s, e, states, steps)
    requires Enabled(states[|steps|], next) && InOrder(states[|steps|], next)
    ensures Continues(s, e, states + [Apply(states[|steps|], next)], steps + [next])
  {
    var u := Apply(states[|steps|], next);
    var ss, es := states + [u], steps + [next];
    SnocTrace(states, steps, next, u);
    forall i {:trigger es[i]} | 0 < i < |es| ensures InOrder(ss[i], es[i]) {
      assert ss[i] == states[i];
      if i < |steps| { assert es[i] == steps[i]; }
    }
  }

  lemma {:induction false} ContinueAlong(s: State, e: Step, states: seq<State>, steps: seq<Step>,
                                         more: seq<State>, moves: seq<Step>, k: nat)
    returns (ss: seq<State>, es: seq<Step>)
    requires Continues(s, e, states, steps) && Disciplined(more, moves) && more[0] == states[|steps|] && k <= |moves|
    ensures Continues(s, e, ss, es) && states <= ss && steps <= es && ss[|es|] == more[k]
  {
    if k == 0 {
      ss, es := states, steps;
    } else {
      ss, es := ContinueAlong(s, e, states, steps, more, moves, k - 1);
      assert Permitted(more[k - 1], moves[k - 1]);
      ContinueOne(s, e, ss, es, moves[k - 1]);
      ss, es := ss + [more[k]], es + [moves[k - 1]];
    }
  }

  lemma ContinueRun(s: State, e: Step, states: seq<State>, steps: seq<Step>, t: State)
    returns (ss: seq<State>, es: seq<Step>)
    requires Continues(s, e, states, steps) && Leads(states[|steps|], t)
    ensures Continues(s, e, ss, es) && states <= ss && steps <= es && ss[|es|] == t
  {
    var more, moves := LeadsWay(states[|steps|], t);
    ss, es := ContinueAlong(s, e, states, steps, more, moves, |moves|);
  }

  /** The host makes call e, then waits on x, then on y. */
  function Waiting(s: State, e: Step, x: nat): (t: State)
    requires Enabled(s, e)
  {
    WaitCall(Apply(s, e), TX, x)
  }

  lemma WaitTwice(s: State, e: Step, x: nat, y: nat) returns (states: seq<State>, steps: seq<Step>)
    requires Enabled(s, e) && x in Line(Apply(s, e).tx) && y in Line(Waiting(s, e, x).tx)
    ensures Continues(s, e, states, steps) && |steps| == 3
    ensures steps[1] == WaitOnStream(TX, x) && steps[2] == WaitOnStream(TX, y)
    ensures states[2] == Waiting(s, e, x) && states[3] == WaitCall(Waiting(s, e, x), TX, y)
  {
    var a := Apply(s, e);
    states, steps := [s, a], [e];
    assert Continues(s, e, states, steps);
    ContinueOne(s, e, states, steps, WaitOnStream(TX, x));
    states, steps := states + [Waiting(s, e, x)], steps + [WaitOnStream(TX, x)];
    ContinueOne(s, e, states, steps, WaitOnStream(TX, y));
    states, steps := states + [WaitCall(Waiting(s, e, x), TX, y)], steps + [WaitOnStream(TX, y)];
  }

  /** If the stream can run dry while x or y is not even with the NIC, the wait on it was passed early. */
  lemma PassEarly(s: State, e: Step, x: nat, y: nat)
    requires Enabled(s, e) && x in Line(Apply(s, e).tx) && y in Line(Waiting(s, e, x).tx)
    requires var u := WaitCall(Waiting(s, e, x), TX, y);
      && u.executed <= |u.issued| && WaitsFlagged(u) && FlagsPass(u)
      && (x !in Handed(u.tx) || y !in Handed(u.tx))
    ensures !SafeCall(s, e)
  {
    var states, steps := WaitTwice(s, e, x, y);
    var t := Rush(states[3]);
    var ss, es := ContinueRun(s, e, states, steps, t);
    assert ss[1] == states[1] && ss[2] == states[2] && ss[3] == states[3];
    assert es[1] == steps[1] && es[2] == steps[2];
    assert WaitPassed(ss, es, 1, TX, x) && WaitPassed(ss, es, 2, TX, y);
    assert x !in LaneOf(t, TX).polled || y !in LaneOf(t, TX).polled;
  }

  // ---- what a loose state has to say about its flags --------------------------------------------------------

  lemma RisingRest(q: seq<nat>)
    requires Increasing(q) && q != []
    ensures var rest, last := q[..|q| - 1], q[|q| - 1];
      && Increasing(rest) && last in q
      && (forall x :: x in rest ==> x in q) && (forall x :: x in q ==> x <= last && (x == last || x in rest))
  {
    var rest, last := q[..|q| - 1], q[|q| - 1];
    forall x | x in rest ensures x in q {
      var i :| 0 <= i < |rest| && rest[i] == x;
      assert q[i] == x;
    }
    forall x | x in q ensures x <= last && (x == last || x in rest) {
      var i :| 0 <= i < |q| && q[i] == x;
      if i < |rest| { assert rest[i] == x; }
    }
  }

  lemma {:induction false} LastFlaggedMax(q: seq<nat>, flagged: set<nat>, before: nat)
    requires Increasing(q) && forall x :: x in q ==> before <= x
    ensures before <= LastFlagged(q, flagged, before)
    ensures forall x :: x in q && x in flagged ==> x <= LastFlagged(q, flagged, before)
  {
    if q != [] {
      RisingRest(q);
      LastFlaggedMax(q[..|q| - 1], flagged, before);
    }
  }

  /** What is flagged and handed over will be reported, or something later will. */
  lemma FinalCovers(l: Lane, hi: nat, w: nat)
    requires LaneOk(l, hi) && w in l.triggered && w in Handed(l)
    ensures w <= Final(l).lastTracked
  {
    var q := l.cq + l.nic;
    var b := |l.polled|;
    assert forall i :: 0 <= i < |q| ==> q[i] == Line(l)[b + i];
    forall x | x in q ensures l.lastTracked <= x {
      var i :| 0 <= i < |q| && q[i] == x;
      if l.lastTracked != 0 {
        var j :| 0 <= j < b && l.polled[j] == l.lastTracked;
        assert Line(l)[j] == l.lastTracked;
      }
    }
    LastFlaggedMax(q, l.triggered, l.lastTracked);
  }

  /** Every queued wait is flagged, and a flagged id is accepted and not above the last wait. */
  ghost predicate Marks(s: State) {
    && WaitsFlagged(s) && s.executed <= |s.issued|
    && (forall w :: w in s.rx.triggered ==> w <= Final(s.rx).lastTracked)
    && (forall w :: w in s.tx.triggered ==> w <= s.tx.lastPostedTracked && w in Line(s.tx))
    && (s.tx.lastPostedTracked == 0 || s.tx.lastPostedTracked in s.tx.triggered)
    && (forall x :: x in Line(s.tx) ==> x <= s.lastReqId)
  }

  lemma LooseFlags(s: State)
    requires Loose(s)
    ensures WaitsFlagged(s)
  {
    var v, gone := ShadowOf(s);
    assert forall p, f, w :: WaitAt(s, p, f, w) ==> WaitAt(v, p, f, w) && LaneOf(v, f).triggered == LaneOf(s, f).triggered;
  }

  lemma LooseReceives(s: State)
    requires Loose(s)
    ensures forall w :: w in s.rx.triggered ==> w <= Final(s.rx).lastTracked
  {
    var v, gone := ShadowOf(s);
    forall w | w in s.rx.triggered ensures w <= Final(s.rx).lastTracked {
      assert Line(s.rx) == Handed(s.rx) + [];
      FinalCovers(s.rx, s.lastReqId, w);
    }
  }

  lemma LooseMarks(s: State)
    requires Loose(s)
    ensures Marks(s)
  {
    var v, gone := ShadowOf(s);
    SlimLine(s, v, gone);
    LooseFlags(s);
    LooseReceives(s);
  }

  lemma RisingApart(a: seq<nat>, b: seq<nat>, y: nat)
    requires Increasing(a + b) && y in b
    ensures forall x :: x in a ==> x < y
  {
    var j :| 0 <= j < |b| && b[j] == y;
    forall x | x in a ensures x < y {
      var i :| 0 <= i < |a| && a[i] == x;
      assert (a + b)[i] == x && (a + b)[|a| + j] == y;
    }
  }

  lemma LoosePosted(s: State, y: nat)
    requires Loose(s) && y in s.tx.posted
    ensures y !in Handed(s.tx) && y <= s.lastPostedTrigger
  {
    var v, gone := ShadowOf(s);
    PostedBelow(v, y);
    RisingApart(Handed(v.tx), v.tx.posted, y);
    assert y in Line(v.tx) && y !in gone;
  }

  lemma TrackFlagged(s: State, f: Flow, id: nat)
    requires WaitsFlagged(s)
    ensures WaitsFlagged(TrackWait(s, f, id))
  {
    var t := TrackWait(s, f, id);
    if t != s {
      QueueAt(s, t, WaitTracked(f, id));
      assert forall g :: LaneOf(s, g).triggered <= LaneOf(t, g).triggered;
    }
  }

  lemma AcceptFlagged(s: State, id: nat)
    requires WaitsFlagged(s)
    ensures WaitsFlagged(Accept(s, id))
  {
    QueueAt(s, Accept(s, id), Trigger(id));
    assert forall g :: LaneOf(s, g).triggered == LaneOf(Accept(s, id), g).triggered;
  }

  // ---- an immediate send that overtakes -------------------------------------------------------------------

  lemma WaitQueued(s: State, x: nat)
    requires x !in s.tx.polled && s.tx.lastPostedTracked < x
    ensures WaitCall(s, TX, x) ==
      s.(tx := s.tx.(lastPostedTracked := x, triggered := s.tx.triggered + {x}), issued := s.issued + [WaitTracked(TX, x)])
  {
  }

  lemma FinalOfLast(l: Lane, x: nat)
    requires l.nic != [] && l.nic[|l.nic| - 1] == x && x in l.triggered
    ensures Final(l).lastTracked == x
  {
    var q := l.cq + l.nic;
    assert q[|q| - 1] == x;
  }

  /** An immediate send is with the NIC and waited on, after a wait on y of the posted list. */
  function Overtaken(s: State, y: nat): (u: State) {
    var n, b := s.lastReqId + 1, WaitCall(s, TX, y);
    b.(lastReqId := n, issued := b.issued + [WaitTracked(TX, n)],
       tx := b.tx.(nic := b.tx.nic + [n], lastPostedTracked := n, triggered := b.tx.triggered + {n}))
  }

  /** A flagged posted request after a wait on the head of the posted list. */
  lemma HeadFlagged(s: State)
    requires Loose(s) && s.tx.posted != []
    ensures var u := WaitCall(s, TX, s.tx.posted[0]); exists h :: h in s.tx.posted && h in u.tx.triggered
  {
    var v, gone := ShadowOf(s);
    var y, m := s.tx.posted[0], s.tx.lastPostedTracked;
    LoosePosted(s, y);
    if m < y {
      assert y in WaitCall(s, TX, y).tx.triggered;
    } else {
      assert m in v.tx.triggered && m in Line(v.tx);
      RisingApart(Handed(v.tx), v.tx.posted, y);
      assert m in s.tx.posted;
    }
  }

  lemma Overtake(s: State, y: nat)
    requires Marks(s) && Enabled(s, IsendNow) && y in s.tx.posted && y !in Handed(s.tx)
    ensures y in Line(Apply(s, IsendNow).tx) && s.lastReqId + 1 in Line(Waiting(s, IsendNow, y).tx)
    ensures WaitCall(Waiting(s, IsendNow, y), TX, s.lastReqId + 1) == Overtaken(s, y)
  {
    var n := s.lastReqId + 1;
    assert y in Line(s.tx) && n in Apply(s, IsendNow).tx.nic;
    assert n !in s.tx.polled by {
      assert forall x :: x in s.tx.polled ==> x in Line(s.tx);
    }
    WaitQueued(Waiting(s, IsendNow, y), n);
  }

  lemma OvertakeFlags(s: State, y: nat)
    requires Marks(s) && y in s.tx.posted && y !in Handed(s.tx)
    ensures var u := Overtaken(s, y); WaitsFlagged(u) && FlagsPass(u) && u.executed <= |u.issued| && y !in Handed(u.tx)
  {
    var n, b, u := s.lastReqId + 1, WaitCall(s, TX, y), Overtaken(s, y);
    TrackFlagged(s, TX, y);
    QueueAt(b, u, WaitTracked(TX, n));
    assert forall f :: LaneOf(b, f).triggered <= LaneOf(u, f).triggered;
    FinalOfLast(u.tx, n);
    assert y in Line(s.tx);
    assert u.rx == s.rx;
  }

  lemma OvertakeUnsafe(s: State)
    requires Loose(s) && Enabled(s, IsendNow) && s.tx.posted != []
    ensures !SafeCall(s, IsendNow)
  {
    LooseMarks(s);
    LoosePosted(s, s.tx.posted[0]);
    OvertakePasses(s, s.tx.posted[0]);
  }

  lemma OvertakePasses(s: State, y: nat)
    requires Marks(s) && Enabled(s, IsendNow) && y in s.tx.posted && y !in Handed(s.tx)
    ensures !SafeCall(s, IsendNow)
  {
    Overtake(s, y);
    OvertakeFlags(s, y);
    PassEarly(s, IsendNow, y, s.lastReqId + 1);
  }

  // ---- a late post with something open above it -------------------------------------------------------------

  lemma NothingPosted(l: Lane, x: nat, mark: nat)
    requires Increasing(Line(l)) && x in Line(l) && mark < x && forall y :: y in l.posted ==> y <= mark
    ensures l.posted == []
  {
    if l.posted != [] { RisingApart(Handed(l), l.posted, l.posted[0]); }
  }

  lemma LastIsMax(q: seq<nat>, x: nat)
    requires Increasing(q) && x in q
    ensures x <= q[|q| - 1] && q[|q| - 1] in q
  {
    var i :| 0 <= i < |q| && q[i] == x;
  }

  lemma LastOpen(l: Lane, x: nat)
    requires l.posted == [] && Line(l) != [] && x == Line(l)[|Line(l)| - 1] && x !in l.polled
    ensures l.cq + l.nic != [] && (l.cq + l.nic)[|l.cq + l.nic| - 1] == x
  {
    var q := l.cq + l.nic;
    assert Line(l) == l.polled + q;
    assert q == [] ==> Line(l) == l.polled;
  }

  /** x ends the line above id: it is still open, or everything is polled and something was flagged. */
  ghost predicate OpenAbove(l: Lane, id: nat, x: nat) {
    && l.posted == [] && id < x && x in Handed(l) && id !in Handed(l)
    && (forall w :: w in l.triggered ==> w <= x)
    && (x !in l.polled ==> l.cq + l.nic != [] && (l.cq + l.nic)[|l.cq + l.nic| - 1] == x)
    && (x in l.polled ==> l.cq == l.nic == [] && id < l.lastPostedTracked && forall w :: w in l.triggered ==> w <= l.lastTracked)
  }

  lemma OpenAboveHere(l: Lane, hi: nat, id: nat, y: nat, mark: nat) returns (x: nat)
    requires LaneOk(l, hi) && y in Line(l) && mark < id < y && forall z :: z in l.posted ==> z <= mark
    requires id !in Line(l) && (y in l.polled ==> y in l.triggered)
    ensures x in Line(l) && OpenAbove(l, id, x)
  {
    NothingPosted(l, y, mark);
    var q := Line(l);
    assert q == Handed(l);
    LastIsMax(q, y);
    x := q[|q| - 1];
    forall w | w in l.triggered ensures w <= x { LastIsMax(q, w); }
    if x in l.polled {
      LastPolled(l);
      assert q == l.polled;
    } else {
      LastOpen(l, x);
    }
  }

  lemma LooseOpenAbove(s: State, id: nat) returns (x: nat)
    requires Loose(s) && id in s.prepared && s.lastPostedTrigger < id && !NoneOpenAbove(s.tx, id)
    ensures OpenAbove(s.tx, id, x)
  {
    var v, gone := ShadowOf(s);
    SlimLine(s, v, gone);
    var y :| y in Line(s.tx) && y > id && !(y in s.tx.polled && y !in s.tx.triggered);
    forall z | z in v.tx.posted ensures z <= v.lastPostedTrigger { PostedBelow(v, z); }
    x := OpenAboveHere(v.tx, v.lastReqId, id, y, v.lastPostedTrigger);
    assert id !in gone && x !in gone;
  }

  /** What a late accepted call leaves: id alone on the posted list, behind x. */
  ghost predicate Late(a: State, id: nat, x: nat) {
    && WaitsFlagged(a) && a.executed <= |a.issued| && a.tx.posted == [id]
    && (a.tx.lastPostedTracked == 0 || a.tx.lastPostedTracked in a.tx.triggered)
    && (forall w :: w in a.rx.triggered ==> w <= Final(a.rx).lastTracked)
    && OpenAbove(a.tx.(posted := []), id, x)
  }

  lemma LateLane(l: Lane, m: Lane, id: nat, x: nat)
    requires OpenAbove(l, id, x)
    requires m == l.(posted := [id], triggered := m.triggered, lastPostedTracked := m.lastPostedTracked)
    requires m == l.(posted := [id]) || (x !in l.polled && forall w :: w in m.triggered ==> w <= x)
    ensures OpenAbove(m.(posted := []), id, x)
  {
  }

  lemma AcceptLate(s: State, id: nat, x: nat)
    requires Marks(s) && OpenAbove(s.tx, id, x)
    ensures Late(Accept(s, id), id, x)
  {
    var a := Accept(s, id);
    AcceptFlagged(s, id);
    LateLane(s.tx, a.tx, id, x);
  }

  lemma TrackLate(a: State, id: nat, x: nat)
    requires Late(a, id, x)
    ensures Late(TrackWait(a, TX, id), id, x)
  {
    var b := TrackWait(a, TX, id);
    TrackFlagged(a, TX, id);
    LateLane(a.tx.(posted := []), b.tx, id, x);
  }

  lemma LateCall(s: State, e: Step, id: nat, x: nat)
    requires Marks(s) && Enabled(s, e) && (e == IsendPost(id) || e == SendPost(id)) && s.lastPostedTrigger < id
    requires OpenAbove(s.tx, id, x)
    ensures Late(Apply(s, e), id, x)
  {
    AcceptLate(s, id, x);
    TrackLate(Accept(s, id), id, x);
  }

  /** What waiting on x then makes of the end of the line: flagged, if it is open, and a wait on id is dropped. */
  lemma WaitLate(a: State, id: nat, x: nat)
    requires Late(a, id, x)
    ensures var u := WaitCall(a, TX, x);
      && WaitsFlagged(u) && u.executed <= |u.issued| && u.rx == a.rx
      && Handed(u.tx) == Handed(a.tx) && u.tx.posted == a.tx.posted
      && u.tx.polled == a.tx.polled && id < u.tx.lastPostedTracked
  {
    TrackFlagged(a, TX, x);
  }

  lemma LateFlags(a: State, id: nat, x: nat)
    requires Late(a, id, x)
    ensures FlagsPass(WaitCall(a, TX, x))
  {
    var u := WaitCall(a, TX, x);
    if x !in a.tx.polled {
      assert u.tx.lastPostedTracked == x && x in u.tx.triggered;
      assert u.tx.cq + u.tx.nic == a.tx.cq + a.tx.nic;
    } else {
      assert a.tx.cq + a.tx.nic == [];
    }
  }

  lemma LateUnsafe(s: State, e: Step, id: nat)
    requires Loose(s) && Enabled(s, e) && (e == IsendPost(id) || e == SendPost(id)) && !InOrder(s, e)
    ensures !SafeCall(s, e)
  {
    assert id in s.prepared by {
      if id in s.tx.posted { LoosePosted(s, id); }
    }
    var x := LooseOpenAbove(s, id);
    LooseMarks(s);
    LateProbe(s, e, id, x);
    PassEarly(s, e, x, id);
  }

  /** The wait on id that comes after the wait on x is dropped. */
  lemma LateDropped(a: State, id: nat, x: nat)
    requires Late(a, id, x)
    ensures var u := WaitCall(a, TX, x);
      WaitCall(u, TX, id) == u && id in Line(u.tx) && x in Line(a.tx) && id !in Handed(u.tx)
  {
    WaitLate(a, id, x);
    assert x in Handed(a.tx) && id in WaitCall(a, TX, x).tx.posted;
  }

  lemma LateProbe(s: State, e: Step, id: nat, x: nat)
    requires Marks(s) && Enabled(s, e) && (e == IsendPost(id) || e == SendPost(id)) && s.lastPostedTrigger < id
    requires OpenAbove(s.tx, id, x)
    ensures x in Line(Apply(s, e).tx) && id in Line(Waiting(s, e, x).tx)
    ensures var u := WaitCall(Waiting(s, e, x), TX, id);
      u.executed <= |u.issued| && WaitsFlagged(u) && FlagsPass(u) && id !in Handed(u.tx)
  {
    LateCall(s, e, id, x);
    WaitLate(Apply(s, e), id, x);
    LateDropped(Apply(s, e), id, x);
    LateFlags(Apply(s, e), id, x);
  }

  // ---- a stream wait for a request that was not accepted ----------------------------------------------------

  /** What the engine does without the inert ids it does with them. */
  lemma {:induction false} LiftAlong(states: seq<State>, steps: seq<Step>, k: nat, u: State, gone: set<nat>)
    returns (t: State)
    requires Disciplined(states, steps) && k <= |steps| && Slim(u, states[0], gone)
    requires forall i :: 0 <= i < |steps| ==> EngineStep(steps[i])
    ensures Leads(u, t) && Slim(t, states[k], gone)
  {
    if k == 0 {
      LeadsHere(u);
      t := u;
    } else {
      var s := LiftAlong(states, steps, k - 1, u, gone);
      var e := steps[k - 1];
      assert Enabled(states[k - 1], e);
      EngineSlim(s, states[k - 1], gone, e);
      LeadsOn(u, s, e);
      t := Apply(s, e);
    }
  }

  /** A loose state comes to rest as well. */
  lemma LooseDrain(s: State) returns (t: State)
    requires Loose(s)
    ensures Leads(s, t) && Drained(t)
  {
    var v, gone := ShadowOf(s);
    var states, steps := Drain(v);
    t := LiftAlong(states, steps, |steps|, s, gone);
  }

  /** t is s with one more wait on its stream, for a request not accepted yet. */
  ghost predicate Pending(s: State, t: State, id: nat) {
    && t == s.(issued := s.issued + [WaitTracked(TX, id)],
               tx := s.tx.(lastPostedTracked := id, triggered := s.tx.triggered + {id}))
    && id !in Line(s.tx)
  }

  lemma PendingStep(s: State, t: State, id: nat, e: Step)
    requires Pending(s, t, id) && Enabled(s, e) && !HostCall(e)
    ensures Enabled(t, e) && Pending(Apply(s, e), Apply(t, e), id)
  {
    EngineExtends(s, e);
    if e.Poll? && e.flow.TX? { assert s.tx.cq[0] in Line(s.tx); }
  }

  lemma {:induction false} PendingAlong(states: seq<State>, steps: seq<Step>, k: nat, t: State, id: nat) returns (u: State)
    requires Disciplined(states, steps) && k <= |steps| && Pending(states[0], t, id)
    requires forall i {:trigger steps[i]} :: 0 <= i < |steps| ==> !HostCall(steps[i])
    ensures Leads(t, u) && Pending(states[k], u, id)
  {
    if k == 0 {
      LeadsHere(t);
      u := t;
    } else {
      var s := PendingAlong(states, steps, k - 1, t, id);
      PendingStep(states[k - 1], s, id, steps[k - 1]);
      LeadsOn(t, s, steps[k - 1]);
      u := Apply(s, steps[k - 1]);
    }
  }

  /** The stream comes to a stop at that wait, with everything before it done. */
  lemma PendingDrain(s: State, t: State, id: nat) returns (u: State)
    requires Loose(s) && Pending(s, t, id)
    ensures Leads(t, u) && u.executed + 1 == |u.issued| && u.issued == t.issued
    ensures u.tx.posted == u.tx.nic == u.tx.cq == [] && u.tx.lastPostedTracked == id
    ensures u.lastReqId == t.lastReqId && Line(u.tx) == Line(t.tx)
  {
    var r := LooseDrain(s);
    var states, steps := LeadsWay(s, r);
    u := PendingAlong(states, steps, |steps|, t, id);
    LeadsUnused(t, u, 0);
    LeadsLine(t, u);
    LeadsIssued(t, u);
  }

  lemma LeadsIssued(s: State, t: State)
    requires Leads(s, t)
    ensures t.issued == s.issued
  {
    var states, steps := LeadsWay(s, t);
    AlongIssued(states, steps, |steps|);
  }

  lemma {:induction false} AlongIssued(states: seq<State>, steps: seq<Step>, k: nat)
    requires Disciplined(states, steps) && k <= |steps|
    requires forall i {:trigger steps[i]} :: 0 <= i < |steps| ==> !HostCall(steps[i])
    ensures states[k].issued == states[0].issued
  {
    if k > 0 {
      AlongIssued(states, steps, k - 1);
      EngineExtends(states[k - 1], steps[k - 1]);
    }
  }

  /** With nothing else on the TX lane, the last id handed over completes, and the stream gets past both waits. */
  lemma PassBoth(u: State, id: nat, y: nat) returns (t: State)
    requires u.tx.nic == [y] && u.tx.cq == [] && y in u.tx.triggered && id < y
    requires u.executed + 2 == |u.issued| && u.issued[u.executed] == WaitTracked(TX, id)
    requires u.issued[u.executed + 1] == WaitTracked(TX, y)
    ensures Leads(u, t) && t.executed == |u.issued| && t.tx.polled == u.tx.polled + [y]
  {
    LeadsHere(u);
    var a := Apply(u, NicComplete(TX));
    LeadsOn(u, u, NicComplete(TX));
    var b := Apply(a, Poll(TX));
    LeadsOn(u, a, Poll(TX));
    var c := Apply(b, StreamStep);
    LeadsOn(u, b, StreamStep);
    t := Apply(c, StreamStep);
    LeadsOn(u, c, StreamStep);
  }

  /** An immediate send is made and waited for while the stream sits at its last command. */
  lemma SendBehind(u: State, id: nat) returns (t: State)
    requires u.lastReqId < UINT_MAX && u.tx.posted == u.tx.nic == u.tx.cq == []
    requires id <= u.lastReqId && u.tx.lastPostedTracked == id && u.lastReqId + 1 !in u.tx.polled
    requires u.executed + 1 == |u.issued| && u.issued[u.executed] == WaitTracked(TX, id)
    ensures var y := u.lastReqId + 1;
      && y in Line(Apply(u, IsendNow).tx) && Leads(Waiting(u, IsendNow, y), t)
      && t.executed == |t.issued| && |u.issued| <= t.executed && t.tx.polled == u.tx.polled + [y]
  {
    var y := u.lastReqId + 1;
    var a, w := Apply(u, IsendNow), Waiting(u, IsendNow, y);
    assert y in a.tx.nic;
    WaitQueued(a, y);
    t := PassBoth(w, id, y);
    LeadsIssued(w, t);
  }

  /**
    A wait that is dropped, on a prepared send or an unsignalled put: the stream can run dry without a
    completion of it.
   */
  lemma DroppedUnsafe(s: State, id: nat)
    requires Loose(s) && 1 <= id <= s.lastReqId && id !in Line(s.tx) && id <= s.tx.lastPostedTracked
    ensures !SafeCall(s, WaitOnStream(TX, id))
  {
    var e := WaitOnStream(TX, id);
    var t := LooseDrain(s);
    DroppedHere(s, id);
    var ss, es := ContinueRun(s, e, [s, s], [e], t);
    LeadsLine(s, t);
    LeadsIssued(s, t);
    assert ss[0] == [s, s][0] && ss[1] == [s, s][1] && es[0] == [e][0];
    NotHonoured(ss, es, id);
  }

  lemma DroppedHere(s: State, id: nat)
    requires 1 <= id <= s.lastReqId && id !in Line(s.tx) && id <= s.tx.lastPostedTracked
    ensures Continues(s, WaitOnStream(TX, id), [s, s], [WaitOnStream(TX, id)])
  {
    var e := WaitOnStream(TX, id);
    assert Enabled(s, e) && Apply(s, e) == s;
  }

  /** The wait that a run began with is passed, and its request is not even on the line. */
  lemma NotHonoured(ss: seq<State>, es: seq<Step>, id: nat)
    requires Trace(ss, es) && es != [] && es[0] == WaitOnStream(TX, id)
    requires var t := ss[|es|]; |ss[1].issued| <= t.executed && id !in Line(t.tx)
    ensures !Honoured(ss, es)
  {
    var t := ss[|es|];
    assert WaitPassed(ss, es, 0, TX, id);
    assert forall x :: x in t.tx.polled ==> x in Line(t.tx);
    assert id !in LaneOf(t, TX).polled;
  }

  lemma Behind(s: State, e: Step, states: seq<State>, steps: seq<Step>, u: State, y: nat, w: State)
    returns (ss: seq<State>, es: seq<Step>)
    requires Continues(s, e, states, steps) && states[|steps|] == u && u.lastReqId < UINT_MAX && u.tx.posted == []
    requires y in Line(Apply(u, IsendNow).tx) && Leads(Waiting(u, IsendNow, y), w)
    ensures Continues(s, e, ss, es) && states <= ss && steps <= es && ss[|es|] == w
  {
    var a := Apply(u, IsendNow);
    ContinueOne(s, e, states, steps, IsendNow);
    ss, es := states + [a], steps + [IsendNow];
    ContinueOne(s, e, ss, es, WaitOnStream(TX, y));
    ss, es := ss + [Waiting(u, IsendNow, y)], es + [WaitOnStream(TX, y)];
    var more, moves := ContinueRun(s, e, ss, es, w);
    ss, es := more, moves;
  }

  lemma QueuedPasses(s: State, id: nat, u: State)
    requires 1 <= id <= s.lastReqId < UINT_MAX && id !in Line(s.tx)
    requires var t := WaitCall(s, TX, id); Leads(t, u) && u.issued == t.issued == s.issued + [WaitTracked(TX, id)]
    requires u.tx.posted == u.tx.nic == u.tx.cq == [] && u.tx.lastPostedTracked == id && u.executed + 1 == |u.issued|
    requires u.lastReqId == s.lastReqId && Line(u.tx) == Line(s.tx)
    requires forall x :: x in Line(s.tx) ==> x <= s.lastReqId
    ensures !SafeCall(s, WaitOnStream(TX, id))
  {
    var e, t := WaitOnStream(TX, id), WaitCall(s, TX, id);
    assert forall x :: x in u.tx.polled ==> x in Line(u.tx);
    var w := SendBehind(u, id);
    assert Continues(s, e, [s, t], [e]);
    var ss, es := ContinueRun(s, e, [s, t], [e], u);
    var states, steps := Behind(s, e, ss, es, u, s.lastReqId + 1, w);
    assert states[0] == [s, t][0] && states[1] == [s, t][1] && steps[0] == [e][0];
    assert WaitPassed(states, steps, 0, TX, id);
    assert id !in LaneOf(w, TX).polled;
  }

  /** One that is queued: a later send that completes lets the stream past it. */
  lemma QueuedUnsafe(s: State, id: nat)
    requires Loose(s) && 1 <= id <= s.lastReqId && id !in Line(s.tx) && s.tx.lastPostedTracked < id
    requires s.lastReqId < UINT_MAX && (forall x :: x in Line(s.tx) ==> x <= s.lastReqId)
    ensures !SafeCall(s, WaitOnStream(TX, id))
  {
    var t := WaitCall(s, TX, id);
    WaitQueued(s, id);
    var u := PendingDrain(s, t, id);
    QueuedPasses(s, id, u);
  }

  /** The number of ids a client can draw is not exhausted, or the wait was dropped anyway. */
  predicate CanTell(s: State, e: Step) {
    e.WaitOnStream? ==> s.lastReqId < UINT_MAX || e.id <= LaneOf(s, e.flow).lastPostedTracked
  }

  lemma UnacceptedUnsafe(s: State, e: Step)
    requires Loose(s) && Enabled(s, e) && e.WaitOnStream? && !InOrder(s, e) && CanTell(s, e)
    ensures !SafeCall(s, e)
  {
    LooseMarks(s);
    if e.id <= s.tx.lastPostedTracked {
      DroppedUnsafe(s, e.id);
    } else {
      QueuedUnsafe(s, e.id);
    }
  }

  // ---- the theorem ------------------------------------------------------------------------------------------

  /**
    The exact condition of the caller's obligations. A call made now is safe in every continuation that
    keeps the guard -- no failed assertion, no wait passed before its completion was polled -- if and
    only if: an immediate mp_isend finds the posted list empty; a deferred post is refused as already
    posted, or every later id accepted before it has been polled unflagged; a stream wait names a
    request that was accepted.
   */
  lemma CallSafeIff(s: State, e: Step)
    requires Loose(s) && Enabled(s, e) && CanTell(s, e)
    ensures SafeCall(s, e) <==> InOrder(s, e)
  {
    if InOrder(s, e) {
      InOrderSafe(s, e);
    } else if e.IsendNow? {
      OvertakeUnsafe(s);
    } else if e.WaitOnStream? {
      UnacceptedUnsafe(s, e);
    } else {
      LateUnsafe(s, e, e.id);
    }
  }

  // ---- and fails the assertion ------------------------------------------------------------------------------

  /** The head of the posted list is handed over, completes and is polled. */
  lemma HeadThrough(t: State) returns (u: State)
    requires t.tx.posted != [] && t.tx.posted[0] <= t.lastTrigger && t.tx.nic == t.tx.cq == []
    ensures Leads(t, u)
    ensures var h := t.tx.posted[0];
      && u.tx == t.tx.(posted := t.tx.posted[1..], polled := t.tx.polled + [h], lastTracked := u.tx.lastTracked)
      && u.lastTrigger == t.lastTrigger
      && (h in t.tx.triggered ==> u.fault == (t.fault || h <= t.tx.lastTracked))
      && (h !in t.tx.triggered ==> u.tx.lastTracked == t.tx.lastTracked)
  {
    LeadsHere(t);
    var a := Apply(t, NicPost(true));
    LeadsOn(t, t, NicPost(true));
    var b := Apply(a, NicComplete(TX));
    LeadsOn(t, a, NicComplete(TX));
    u := Apply(b, Poll(TX));
    LeadsOn(t, b, Poll(TX));
  }

  /** A flagged request on the posted list, below what was already reported, ends in the assertion. */
  lemma {:induction false} FaultAhead(t: State, h: nat) returns (u: State)
    requires h in t.tx.posted && h in t.tx.triggered && t.tx.nic == t.tx.cq == []
    requires forall x :: x in t.tx.posted ==> x <= t.lastTrigger && x <= t.tx.lastTracked
    ensures Leads(t, u) && u.fault
    decreases |t.tx.posted|
  {
    var head, rest := t.tx.posted[0], t.tx.posted[1..];
    assert t.tx.posted == [head] + rest && head in t.tx.posted;
    var a := HeadThrough(t);
    if head in t.tx.triggered {
      u := a;
    } else {
      assert forall x :: x in rest ==> x in t.tx.posted;
      u := FaultAhead(a, h);
      LeadsBoth(t, a, u);
    }
  }

  /** Every posted request has its trigger on the stream. */
  ghost predicate PostedTriggered(s: State) {
    forall x :: x in s.tx.posted ==> exists q :: TriggerAt(s, q, x)
  }

  lemma LooseTriggers(s: State)
    requires Loose(s)
    ensures TriggersRise(s) && PostedTriggered(s)
  {
    var v, gone := ShadowOf(s);
    assert forall q, x :: TriggerAt(v, q, x) <==> TriggerAt(s, q, x);
  }

  lemma OvertakenTriggers(s: State, y: nat)
    requires TriggersRise(s) && PostedTriggered(s) && s.executed <= |s.issued|
    ensures TriggersRise(Overtaken(s, y)) && PostedTriggered(Overtaken(s, y))
  {
    var b, u := WaitCall(s, TX, y), Overtaken(s, y);
    if b != s { QueueAt(s, b, WaitTracked(TX, y)); }
    QueueAt(b, u, WaitTracked(TX, s.lastReqId + 1));
    assert forall q, x :: TriggerAt(u, q, x) <==> TriggerAt(s, q, x);
    forall x | x in u.tx.posted ensures exists q :: TriggerAt(u, q, x) {
      var q :| TriggerAt(s, q, x);
      assert TriggerAt(u, q, x);
    }
  }

  /** After the rush everything posted may be handed over, and is below the overtaking id. */
  lemma RushedPosted(s: State, y: nat, t: State)
    requires Marks(s) && TriggersRise(t) && PostedTriggered(Overtaken(s, y))
    requires var u := Overtaken(s, y);
      t == u.(executed := |u.issued|, tx := Final(u.tx), rx := Final(u.rx), lastTrigger := t.lastTrigger, fault := t.fault)
    ensures forall x :: x in t.tx.posted ==> x <= t.lastTrigger && x <= t.tx.lastTracked
  {
    var u := Overtaken(s, y);
    FinalOfLast(u.tx, s.lastReqId + 1);
    forall x | x in t.tx.posted ensures x <= t.lastTrigger && x <= t.tx.lastTracked {
      var q :| TriggerAt(u, q, x);
      assert TriggerAt(t, q, x);
      assert x in Line(s.tx);
    }
  }

  lemma OvertakenFaults(s: State, y: nat, h: nat) returns (u: State)
    requires Marks(s) && TriggersRise(s) && PostedTriggered(s) && y in s.tx.posted && y !in Handed(s.tx)
    requires h in s.tx.posted && h in WaitCall(s, TX, y).tx.triggered
    ensures Leads(Overtaken(s, y), u) && u.fault
  {
    OvertakeFlags(s, y);
    OvertakenTriggers(s, y);
    var t := Rush(Overtaken(s, y));
    RushedPosted(s, y, t);
    u := FaultAhead(t, h);
    LeadsBoth(Overtaken(s, y), t, u);
  }

  lemma OvertakeSettles(s: State) returns (u: State)
    requires Loose(s) && Enabled(s, IsendNow) && s.tx.posted != []
    ensures Leads(Overtaken(s, s.tx.posted[0]), u) && u.fault
  {
    var y := s.tx.posted[0];
    LooseMarks(s);
    LoosePosted(s, y);
    LooseTriggers(s);
    HeadFlagged(s);
    var h :| h in s.tx.posted && h in WaitCall(s, TX, y).tx.triggered;
    u := OvertakenFaults(s, y, h);
  }

  lemma OvertakeCalls(s: State, y: nat) returns (states: seq<State>, steps: seq<Step>)
    requires Marks(s) && Enabled(s, IsendNow) && y in s.tx.posted && y !in Handed(s.tx)
    ensures Continues(s, IsendNow, states, steps) && states[|steps|] == Overtaken(s, y)
  {
    Overtake(s, y);
    states, steps := WaitTwice(s, IsendNow, y, s.lastReqId + 1);
  }

  lemma OvertakeFaults(s: State) returns (states: seq<State>, steps: seq<Step>)
    requires Loose(s) && Enabled(s, IsendNow) && s.tx.posted != []
    ensures Continues(s, IsendNow, states, steps) && states[|steps|].fault
  {
    var y := s.tx.posted[0];
    LooseMarks(s);
    LoosePosted(s, y);
    states, steps := OvertakeCalls(s, y);
    var u := OvertakeSettles(s);
    states, steps := ContinueRun(s, IsendNow, states, steps, u);
  }

  /**
    For the tracked-id assertion alone: it can fail after an immediate mp_isend if and only if a
    deferred send was still on the posted list.
   */
  lemma AssertionHoldsIff(s: State)
    requires Loose(s) && Enabled(s, IsendNow)
    ensures s.tx.posted == [] <==>
            forall states: seq<State>, steps: seq<Step> ::
              Continues(s, IsendNow, states, steps) ==> !states[|steps|].fault
  {
    if s.tx.posted == [] {
      InOrderSafe(s, IsendNow);
      assert forall states: seq<State>, steps: seq<Step> ::
          Continues(s, IsendNow, states, steps) ==> Honoured(states, steps);
    } else {
      var states, steps := OvertakeFaults(s);
    }
  }
}
