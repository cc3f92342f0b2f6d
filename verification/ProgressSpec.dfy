/** What one pass of the progress engine does to the event-sync machine. */
module ProgressSpec {
  import opened EventSync
  import opened EventSyncInvariant
  import opened EventSyncTheorems

  /** Triggered sends are handed to the NIC in list order, until a post is refused. */
  function PostPass(s: State, ok: nat -> bool): (t: State)
    ensures t.tx.cq == s.tx.cq && t.rx == s.rx
    decreases |s.tx.posted|
  {
    if Enabled(s, NicPost(true)) && ok(s.tx.posted[0]) then PostPass(Apply(s, NicPost(true)), ok) else s
  }

  /** n completions of flow f are polled. */
  function PollMany(s: State, f: Flow, n: nat): (t: State)
    requires n <= |LaneOf(s, f).cq|
    ensures |LaneOf(t, f).cq| == |LaneOf(s, f).cq| - n
  {
    if n == 0 then s else PollStep(PollMany(s, f, n - 1), f)
  }

  /** One call of mp_progress_single_flow: ne is what polling the CQ returned. */
  function ProgressPass(s: State, f: Flow, ok: nat -> bool, ne: int): (t: State)
    requires ne <= |LaneOf(s, f).cq|
  {
    var p := if f.TX? then PostPass(s, ok) else s;
    if ne < 0 then p else PollMany(p, f, ne)
  }

  // ---- a pass is a run of engine steps -----------------------------------------------------------

  ghost predicate EngineRun(states: seq<State>, steps: seq<Step>, s: State, t: State) {
    && Disciplined(states, steps)
    && (forall i {:trigger steps[i]} :: 0 <= i < |steps| ==> !HostCall(steps[i]))
    && states[0] == s && states[|steps|] == t
  }

  /** A run is looked into only where a fact is noted; callers hand it on. */
  predicate Noted(k: int) { 0 <= k }

  ghost predicate EngineWay(states: seq<State>, steps: seq<Step>, s: State, t: State) {
    forall k {:trigger Noted(k)} :: Noted(k) ==> EngineRun(states, steps, s, t)
  }

  /** The stream, the NIC and the progress engine can bring s to t. */
  ghost predicate Leads(s: State, t: State) { exists states, steps :: EngineWay(states, steps, s, t) }

  lemma LeadsWay(s: State, t: State) returns (states: seq<State>, steps: seq<Step>)
    requires Leads(s, t)
    ensures EngineRun(states, steps, s, t)
  {
    states, steps :| EngineWay(states, steps, s, t);
    assert Noted(0);
  }

  lemma LeadsHere(s: State)
    ensures Leads(s, s)
  {
    assert EngineRun([s], [], s, s);
    assert EngineWay([s], [], s, s);
  }

  lemma LeadsOn(s: State, t: State, e: Step)
    requires Leads(s, t) && Enabled(t, e) && !HostCall(e)
    ensures Leads(s, Apply(t, e))
  {
    var states, steps := LeadsWay(s, t);
    var u := Apply(t, e);
    SnocTrace(states, steps, e, u);
    assert EngineRun(states + [u], steps + [e], s, u);
    assert EngineWay(states + [u], steps + [e], s, u);
  }

  lemma {:induction false} LeadsBoth(s: State, t: State, u: State)
    requires Leads(s, t) && Leads(t, u)
    ensures Leads(s, u)
  {
    var states, steps := LeadsWay(t, u);
    LeadsAlong(s, states, steps, |steps|);
  }

  lemma {:induction false} LeadsAlong(s: State, states: seq<State>, steps: seq<Step>, k: nat)
    requires Disciplined(states, steps) && k <= |steps| && Leads(s, states[0])
    requires forall i {:trigger steps[i]} :: 0 <= i < |steps| ==> !HostCall(steps[i])
    ensures Leads(s, states[k])
  {
    if k > 0 {
      LeadsAlong(s, states, steps, k - 1);
      LeadsOn(s, states[k - 1], steps[k - 1]);
    }
  }

  /** So it keeps the invariant and never takes back what was accepted, issued or completed. */
  lemma LeadsKeeps(s: State, t: State)
    requires Inv(s) && Leads(s, t)
    ensures Inv(t) && Extends(s, t)
  {
    var states, steps := LeadsWay(s, t);
    DisciplinedKeeps(states, steps, |steps|);
    TraceExtends(states, steps, 0, |steps|);
  }

  // ---- engine steps and an id that was only drawn ----------------------------------------------------

  lemma EngineUnused(s: State, e: Step, id: nat)
    requires Enabled(s, e) && !HostCall(e)
    ensures Apply(s, e).lastReqId == s.lastReqId
    ensures Unused(s, id) ==> Unused(Apply(s, e), id)
    ensures s.tx.posted == [] ==> Apply(s, e).tx.posted == []
  {
    EngineExtends(s, e);
  }

  lemma {:induction false} LeadsUnused(s: State, t: State, id: nat)
    requires Leads(s, t)
    ensures t.lastReqId == s.lastReqId && (Unused(s, id) ==> Unused(t, id))
    ensures s.tx.posted == [] ==> t.tx.posted == []
  {
    var states, steps := LeadsWay(s, t);
    AlongUnused(states, steps, |steps|, id);
  }

  lemma {:induction false} AlongUnused(states: seq<State>, steps: seq<Step>, k: nat, id: nat)
    requires Disciplined(states, steps) && k <= |steps|
    requires forall i {:trigger steps[i]} :: 0 <= i < |steps| ==> !HostCall(steps[i])
    ensures states[k].lastReqId == states[0].lastReqId && (Unused(states[0], id) ==> Unused(states[k], id))
    ensures states[0].tx.posted == [] ==> states[k].tx.posted == []
  {
    if k > 0 {
      AlongUnused(states, steps, k - 1, id);
      EngineUnused(states[k - 1], steps[k - 1], id);
    }
  }

  /** The engine accepts nothing. */
  lemma {:induction false} LeadsLine(s: State, t: State)
    requires Leads(s, t)
    ensures Line(t.tx) == Line(s.tx)
  {
    var states, steps := LeadsWay(s, t);
    AlongLine(states, steps, |steps|);
  }

  lemma {:induction false} AlongLine(states: seq<State>, steps: seq<Step>, k: nat)
    requires Disciplined(states, steps) && k <= |steps|
    requires forall i {:trigger steps[i]} :: 0 <= i < |steps| ==> !HostCall(steps[i])
    ensures Line(states[k].tx) == Line(states[0].tx)
  {
    if k > 0 {
      AlongLine(states, steps, k - 1);
      EngineExtends(states[k - 1], steps[k - 1]);
    }
  }

  lemma EngineUndrawn(s: State, e: Step, n: nat)
    requires Enabled(s, e) && !HostCall(e)
    ensures Enabled(s.(lastReqId := n), e) && Apply(s.(lastReqId := n), e) == Apply(s, e).(lastReqId := n)
  {
  }

  /** The engine does not look at the counter ids are drawn from. */
  lemma {:induction false} LeadsUndrawn(s: State, t: State, n: nat)
    requires Leads(s, t)
    ensures Leads(s.(lastReqId := n), t.(lastReqId := n))
  {
    var states, steps := LeadsWay(s, t);
    AlongUndrawn(states, steps, |steps|, n);
  }

  lemma {:induction false} AlongUndrawn(states: seq<State>, steps: seq<Step>, k: nat, n: nat)
    requires Disciplined(states, steps) && k <= |steps|
    requires forall i {:trigger steps[i]} :: 0 <= i < |steps| ==> !HostCall(steps[i])
    ensures Leads(states[0].(lastReqId := n), states[k].(lastReqId := n))
  {
    var u := states[0].(lastReqId := n);
    if k == 0 {
      LeadsHere(u);
    } else {
      AlongUndrawn(states, steps, k - 1, n);
      EngineUndrawn(states[k - 1], steps[k - 1], n);
      LeadsOn(u, states[k - 1].(lastReqId := n), steps[k - 1]);
    }
  }

  // ---- stretches of a run, host calls included -----------------------------------------------------------

  ghost predicate RunsTo(states: seq<State>, steps: seq<Step>, s: State, t: State) {
    Disciplined(states, steps) && states[0] == s && states[|steps|] == t
  }

  ghost predicate Way(states: seq<State>, steps: seq<Step>, s: State, t: State) {
    forall k {:trigger Noted(k)} :: Noted(k) ==> RunsTo(states, steps, s, t)
  }

  /** Calls that keep to the caller's side of the contract, and engine steps, can bring s to t. */
  ghost predicate Goes(s: State, t: State) { exists states, steps :: Way(states, steps, s, t) }

  lemma GoesWay(s: State, t: State) returns (states: seq<State>, steps: seq<Step>)
    requires Goes(s, t)
    ensures RunsTo(states, steps, s, t)
  {
    states, steps :| Way(states, steps, s, t);
    assert Noted(0);
  }

  lemma GoesHere(s: State)
    ensures Goes(s, s)
  {
    assert RunsTo([s], [], s, s);
    assert Way([s], [], s, s);
  }

  lemma GoesOn(s: State, t: State, e: Step)
    requires Goes(s, t) && Enabled(t, e) && Permitted(t, e)
    ensures Goes(s, Apply(t, e))
  {
    var states, steps := GoesWay(s, t);
    SnocRun(states, steps, s, t, e);
    assert Way(states + [Apply(t, e)], steps + [e], s, Apply(t, e));
  }

  lemma {:induction false} GoesAlong(s: State, states: seq<State>, steps: seq<Step>, k: nat)
    requires Disciplined(states, steps) && k <= |steps| && Goes(s, states[0])
    ensures Goes(s, states[k])
  {
    if k > 0 {
      GoesAlong(s, states, steps, k - 1);
      GoesOn(s, states[k - 1], steps[k - 1]);
    }
  }

  lemma GoesBoth(s: State, t: State, u: State)
    requires Goes(s, t) && Goes(t, u)
    ensures Goes(s, u)
  {
    var states, steps := GoesWay(t, u);
    GoesAlong(s, states, steps, |steps|);
  }

  lemma LeadsGoes(s: State, t: State)
    requires Leads(s, t)
    ensures Goes(s, t)
  {
    var states, steps := LeadsWay(s, t);
    assert RunsTo(states, steps, s, t);
    assert Way(states, steps, s, t);
  }

  /** The host's calls among the steps, in order. */
  function HostSteps(steps: seq<Step>): (calls: seq<Step>) {
    if steps == [] then []
    else HostSteps(steps[..|steps| - 1]) + if HostCall(steps[|steps| - 1]) then [steps[|steps| - 1]] else []
  }

  ghost predicate RunsBy(states: seq<State>, steps: seq<Step>, s: State, t: State, calls: seq<Step>) {
    RunsTo(states, steps, s, t) && HostSteps(steps) == calls
  }

  ghost predicate WayBy(states: seq<State>, steps: seq<Step>, s: State, t: State, calls: seq<Step>) {
    forall k {:trigger Noted(k)} :: Noted(k) ==> RunsBy(states, steps, s, t, calls)
  }

  /** These calls of the host, and engine steps, can bring s to t. */
  ghost predicate GoesBy(s: State, t: State, calls: seq<Step>) {
    exists states, steps :: WayBy(states, steps, s, t, calls)
  }

  lemma ByWay(s: State, t: State, calls: seq<Step>) returns (states: seq<State>, steps: seq<Step>)
    requires GoesBy(s, t, calls)
    ensures RunsBy(states, steps, s, t, calls)
  {
    states, steps :| WayBy(states, steps, s, t, calls);
    assert Noted(0);
  }

  lemma ByHere(s: State)
    ensures GoesBy(s, s, [])
  {
    assert RunsBy([s], [], s, s, []);
    assert WayBy([s], [], s, s, []);
  }

  lemma ByGoes(s: State, t: State, calls: seq<Step>)
    requires GoesBy(s, t, calls)
    ensures Goes(s, t)
  {
    var states, steps := ByWay(s, t, calls);
    assert Way(states, steps, s, t);
  }

  lemma SnocRun(states: seq<State>, steps: seq<Step>, s: State, t: State, e: Step)
    requires RunsTo(states, steps, s, t) && Enabled(t, e) && Permitted(t, e)
    ensures RunsTo(states + [Apply(t, e)], steps + [e], s, Apply(t, e))
  {
    var ss, es := states + [Apply(t, e)], steps + [e];
    SnocTrace(states, steps, e, Apply(t, e));
    forall i {:trigger es[i]} | 0 <= i < |es| ensures Permitted(ss[i], es[i]) {
      assert ss[i] == states[i];
      if i < |steps| { assert es[i] == steps[i]; }
    }
  }

  lemma ByOn(s: State, t: State, calls: seq<Step>, e: Step)
    requires GoesBy(s, t, calls) && Enabled(t, e) && Permitted(t, e)
    ensures GoesBy(s, Apply(t, e), if HostCall(e) then calls + [e] else calls)
  {
    var states, steps := ByWay(s, t, calls);
    SnocRun(states, steps, s, t, e);
    assert (steps + [e])[..|steps|] == steps;
    assert RunsBy(states + [Apply(t, e)], steps + [e], s, Apply(t, e), if HostCall(e) then calls + [e] else calls);
    assert WayBy(states + [Apply(t, e)], steps + [e], s, Apply(t, e), if HostCall(e) then calls + [e] else calls);
  }

  /** One permitted call by itself. */
  lemma ByOne(s: State, e: Step)
    requires Enabled(s, e) && Permitted(s, e) && HostCall(e)
    ensures GoesBy(s, Apply(s, e), [e])
  {
    ByHere(s);
    ByOn(s, s, [], e);
    assert [] + [e] == [e];
  }

  lemma {:induction false} LeadsBy(s: State, calls: seq<Step>, t: State, u: State)
    requires GoesBy(s, t, calls) && Leads(t, u)
    ensures GoesBy(s, u, calls)
  {
    var states, steps := LeadsWay(t, u);
    AlongBy(s, calls, states, steps, |steps|);
  }

  lemma {:induction false} AlongBy(s: State, calls: seq<Step>, states: seq<State>, steps: seq<Step>, k: nat)
    requires Disciplined(states, steps) && k <= |steps| && GoesBy(s, states[0], calls)
    requires forall i {:trigger steps[i]} :: 0 <= i < |steps| ==> !HostCall(steps[i])
    ensures GoesBy(s, states[k], calls)
  {
    if k > 0 {
      AlongBy(s, calls, states, steps, k - 1);
      ByOn(s, states[k - 1], calls, steps[k - 1]);
    }
  }

  /** What such a stretch reaches satisfies the invariant, and takes nothing back. */
  lemma GoesKeeps(s: State, t: State)
    requires Inv(s) && Goes(s, t)
    ensures Inv(t) && Extends(s, t)
  {
    var states, steps := GoesWay(s, t);
    DisciplinedKeeps(states, steps, |steps|);
    TraceExtends(states, steps, 0, |steps|);
  }

  lemma {:induction false} PostPassLeads(s: State, ok: nat -> bool)
    ensures Leads(s, PostPass(s, ok))
    decreases |s.tx.posted|
  {
    LeadsHere(s);
    if Enabled(s, NicPost(true)) && ok(s.tx.posted[0]) {
      LeadsOn(s, s, NicPost(true));
      PostPassLeads(Apply(s, NicPost(true)), ok);
      LeadsBoth(s, Apply(s, NicPost(true)), PostPass(s, ok));
    }
  }

  lemma {:induction false} PollManyLeads(s: State, f: Flow, n: nat)
    requires n <= |LaneOf(s, f).cq|
    ensures Leads(s, PollMany(s, f, n))
  {
    LeadsHere(s);
    if n > 0 {
      PollManyLeads(s, f, n - 1);
      LeadsOn(s, PollMany(s, f, n - 1), Poll(f));
    }
  }

  /** A progress call is a stretch of a run, so what holds of all runs holds of it. */
  lemma ProgressLeads(s: State, f: Flow, ok: nat -> bool, ne: int)
    requires ne <= |LaneOf(s, f).cq|
    ensures Leads(s, ProgressPass(s, f, ok, ne))
  {
    var p := if f.TX? then PostPass(s, ok) else s;
    LeadsHere(s);
    PostPassLeads(s, ok);
    if ne >= 0 {
      PollManyLeads(p, f, ne);
      LeadsBoth(s, p, PollMany(p, f, ne));
    }
  }

  // ---- what a pass removes and reports -----------------------------------------------------------

  /** The first k entries of the posted list handed over. */
  function HandFirst(s: State, k: nat): (t: State)
    requires k <= |s.tx.posted|
  {
    s.(tx := s.tx.(posted := s.tx.posted[k..], nic := s.tx.nic + s.tx.posted[..k]))
  }

  lemma HandOneMore(s: State, m: nat)
    requires m < |s.tx.posted|
    ensures HandFirst(s.(tx := LanePost(s.tx)), m) == HandFirst(s, m + 1)
  {
    var t := s.(tx := LanePost(s.tx));
    assert s.tx.posted[..m + 1] == [s.tx.posted[0]] + t.tx.posted[..m];
    assert HandFirst(t, m).tx.nic == s.tx.nic + s.tx.posted[..m + 1];
  }

  /** Entry k stays where it is: the list ends, it was not triggered, or its post is refused. */
  predicate Stays(s: State, ok: nat -> bool, k: nat) {
    k < |s.tx.posted| ==> s.tx.posted[k] > s.lastTrigger || !ok(s.tx.posted[k])
  }

  /** Entry k is the first that stays. */
  ghost predicate FirstStays(s: State, ok: nat -> bool, k: nat) {
    k <= |s.tx.posted| && Stays(s, ok, k) && forall j: nat {:trigger Stays(s, ok, j)} :: j < k ==> !Stays(s, ok, j)
  }

  lemma FirstStaysNext(s: State, t: State, ok: nat -> bool, m: nat)
    requires s.tx.posted != [] && !Stays(s, ok, 0) && t == s.(tx := LanePost(s.tx)) && FirstStays(t, ok, m)
    ensures FirstStays(s, ok, m + 1)
  {
    assert Stays(t, ok, m);
    forall j: nat | j < m + 1 ensures !Stays(s, ok, j) {
      if j > 0 { assert !Stays(t, ok, j - 1) && s.tx.posted[j] == t.tx.posted[j - 1]; }
    }
  }

  /** A pass hands over exactly the entries before the first one that stays. */
  lemma {:induction false} PostPassExact(s: State, ok: nat -> bool) returns (k: nat)
    ensures FirstStays(s, ok, k) && PostPass(s, ok) == HandFirst(s, k)
    decreases |s.tx.posted|
  {
    if Enabled(s, NicPost(true)) && ok(s.tx.posted[0]) {
      var t := Apply(s, NicPost(true));
      var m := PostPassExact(t, ok);
      k := m + 1;
      HandOneMore(s, m);
      FirstStaysNext(s, t, ok, m);
    } else {
      k := 0;
      assert HandFirst(s, 0).tx.nic == s.tx.nic;
      assert Stays(s, ok, 0);
    }
  }

  lemma CutAt(p: seq<nat>, k: nat, limit: nat)
    requires k <= |p| && forall j :: 0 <= j < |p| ==> (j < k <==> p[j] <= limit)
    ensures forall x :: x in p[k..] <==> x in p && x > limit
    ensures forall x :: x in p[..k] <==> x in p && x <= limit
  {
    forall x ensures x in p[k..] <==> x in p && x > limit {
      if x in p && x > limit { var j :| 0 <= j < |p| && p[j] == x; assert p[k..][j - k] == x; }
    }
    forall x ensures x in p[..k] <==> x in p && x <= limit {
      if x in p && x <= limit { var j :| 0 <= j < |p| && p[j] == x; assert p[..k][j] == x; }
    }
  }

  lemma PostedRising(s: State, i: int, j: int)
    requires Inv(s) && 0 <= i < j < |s.tx.posted|
    ensures s.tx.posted[i] < s.tx.posted[j]
  {
    var h := |Handed(s.tx)|;
    assert s.tx.posted[i] == Line(s.tx)[h + i] && s.tx.posted[j] == Line(s.tx)[h + j];
  }

  lemma FirstLimit(s: State, ok: nat -> bool, k: nat)
    requires Inv(s) && FirstStays(s, ok, k) && forall x :: x in s.tx.posted ==> ok(x)
    ensures forall j :: 0 <= j < |s.tx.posted| ==> (j < k <==> s.tx.posted[j] <= s.lastTrigger)
  {
    forall j | 0 <= j < |s.tx.posted| ensures j < k <==> s.tx.posted[j] <= s.lastTrigger {
      if j < k {
        assert !Stays(s, ok, j);
      } else if j > k {
        PostedRising(s, k, j);
      }
    }
  }

  lemma CutJoins(nic: seq<nat>, p: seq<nat>, k: nat)
    requires k <= |p|
    ensures (nic + p[..k]) + p[k..] == nic + p
  {
    assert p == p[..k] + p[k..];
  }

  /** When no post is refused, a pass removes exactly the entries whose trigger was written. */
  lemma PassRemovesTriggered(s: State, ok: nat -> bool)
    requires Inv(s) && forall x :: x in s.tx.posted ==> ok(x)
    ensures var t := PostPass(s, ok);
      && (forall x :: x in t.tx.posted <==> x in s.tx.posted && x > s.lastTrigger)
      && (forall x :: x in t.tx.nic <==> x in s.tx.nic || (x in s.tx.posted && x <= s.lastTrigger))
      && t.tx.nic + t.tx.posted == s.tx.nic + s.tx.posted
  {
    var k := PostPassExact(s, ok);
    FirstLimit(s, ok, k);
    CutAt(s.tx.posted, k, s.lastTrigger);
    CutJoins(s.tx.nic, s.tx.posted, k);
  }

  /** The id reported after the completions q: the last one whose request is flagged, if any. */
  function LastFlagged(q: seq<nat>, flagged: set<nat>, before: nat): (id: nat) {
    if q == [] then before
    else if q[|q| - 1] in flagged then q[|q| - 1]
    else LastFlagged(q[..|q| - 1], flagged, before)
  }

  lemma {:induction false} PollManyKeeps(s: State, f: Flow, n: nat)
    requires Inv(s) && n <= |LaneOf(s, f).cq|
    ensures Inv(PollMany(s, f, n)) && !PollMany(s, f, n).fault
  {
    if n > 0 {
      PollManyKeeps(s, f, n - 1);
      EngineKeeps(PollMany(s, f, n - 1), Poll(f));
    }
  }

  /** The id about to be reported is new. */
  lemma ReportsRise(s: State, f: Flow)
    requires Inv(s) && LaneOf(s, f).cq != []
    ensures var l := LaneOf(s, f); l.cq[0] in l.triggered ==> l.lastTracked < l.cq[0]
    ensures Inv(PollStep(s, f))
  {
    PollManyKeeps(s, f, 1);
    assert PollMany(s, f, 1) == PollStep(PollMany(s, f, 0), f);
  }

  /** A lane after n of its completions were polled. */
  function LaneAfter(l: Lane, n: nat): (m: Lane)
    requires n <= |l.cq|
  {
    l.(cq := l.cq[n..], polled := l.polled + l.cq[..n],
       lastTracked := LastFlagged(l.cq[..n], l.triggered, l.lastTracked))
  }

  lemma LaneAfterNext(l: Lane, n: nat)
    requires n < |l.cq|
    ensures LaneAfter(l, 0) == l && LaneAfter(l, n).cq != [] && LanePoll(LaneAfter(l, n)) == LaneAfter(l, n + 1)
  {
    assert l.cq[..n + 1] == l.cq[..n] + [l.cq[n]] && l.cq[n + 1..] == l.cq[n..][1..];
    assert l.polled + l.cq[..n + 1] == l.polled + l.cq[..n] + [l.cq[n]];
    assert l.polled + l.cq[..0] == l.polled;
  }

  lemma {:induction false} PollManyMoves(s: State, f: Flow, n: nat)
    requires n <= |LaneOf(s, f).cq|
    ensures PollMany(s, f, n) == WithLane(s, f, LaneAfter(LaneOf(s, f), n)).(fault := PollMany(s, f, n).fault)
  {
    var l := LaneOf(s, f);
    if n == 0 {
      assert l.polled + l.cq[..0] == l.polled;
    } else {
      PollManyMoves(s, f, n - 1);
      LaneAfterNext(l, n - 1);
    }
  }

  lemma PollManyNext(s: State, f: Flow, n: nat)
    requires Inv(s) && n < |LaneOf(s, f).cq|
    ensures Inv(PollMany(s, f, n)) && LaneOf(PollMany(s, f, n), f).cq[0] == LaneOf(s, f).cq[n]
  {
    PollManyKeeps(s, f, n);
    PollManyMoves(s, f, n);
  }

  /** Polling moves completions in order and reports the last flagged one; the assertion holds. */
  lemma PollManyExact(s: State, f: Flow, n: nat)
    requires Inv(s) && n <= |LaneOf(s, f).cq|
    ensures PollMany(s, f, n) == WithLane(s, f, LaneAfter(LaneOf(s, f), n)) && Inv(PollMany(s, f, n))
  {
    PollManyKeeps(s, f, n);
    PollManyMoves(s, f, n);
    PollManyKeeps(s, f, 0);
  }
}
