/**
  What a progress call comes to: which requests it hands over, which completions it polls, and what it
  reports, in terms of the queues before and after it; and what the stream and the NIC do around it.
 */
module ProgressEffect {
  import opened EventSync
  import opened EventSyncInvariant
  import opened EventSyncTheorems
  import opened ProgressSpec

  /** cq_poll_count: completions taken from a CQ in one go. */
  const CQ_POLL_COUNT := 20

  // ---- one progress call -------------------------------------------------------------------------------

  /** id is the last flagged one of q, or before when none is flagged. */
  ghost predicate Reports(q: seq<nat>, flagged: set<nat>, before: nat, id: nat) {
    || (id == before && forall i :: 0 <= i < |q| ==> q[i] !in flagged)
    || (exists i :: 0 <= i < |q| && q[i] == id && id in flagged && forall j :: i < j < |q| ==> q[j] !in flagged)
  }

  lemma {:induction false} LastFlaggedReports(q: seq<nat>, flagged: set<nat>, before: nat)
    ensures Reports(q, flagged, before, LastFlagged(q, flagged, before))
  {
    if q != [] {
      var n, init := |q| - 1, q[..|q| - 1];
      if q[n] !in flagged {
        LastFlaggedReports(init, flagged, before);
        assert forall i :: 0 <= i < n ==> q[i] == init[i];
      }
    }
  }

  /** The first n completions of the lane were polled, in order, and the last flagged one is reported. */
  ghost predicate LanePolled(l: Lane, m: Lane, n: nat) {
    && n <= |l.cq| && m.cq == l.cq[n..] && m.polled == l.polled + l.cq[..n]
    && m.triggered == l.triggered && m.lastPostedTracked == l.lastPostedTracked
    && Reports(l.cq[..n], l.triggered, l.lastTracked, m.lastTracked)
  }

  /** The first k posted requests are with the NIC, behind what was there. */
  ghost predicate HandedOver(l: Lane, m: Lane, k: nat) {
    k <= |l.posted| && m.posted == l.posted[k..] && m.nic == l.nic + l.posted[..k]
  }

  /** A progress call on the TX flow hands over all posted requests before the first that stays. */
  ghost predicate PostsHanded(s: State, t: State, ok: nat -> bool) {
    exists k: nat :: FirstStays(s, ok, k) && HandedOver(s.tx, t.tx, k)
  }

  /**
    A progress call on flow f, in which ibv_poll_cq returned ne: on the TX flow the triggered requests are
    handed over up to the first refused one; the first ne completions of the flow are polled, and none
    on an error. The other flow and everything else stay as they are.
   */
  ghost predicate Progressed(s: State, t: State, f: Flow, ok: nat -> bool, ne: int) {
    && t == s.(tx := t.tx, rx := t.rx)
    && LanePolled(LaneOf(s, f), LaneOf(t, f), if ne < 0 then 0 else ne)
    && (f.TX? ==> PostsHanded(s, t, ok) && t.rx == s.rx)
    && (f.RX? ==> t.tx == s.tx && t.rx.nic == s.rx.nic && t.rx.posted == s.rx.posted)
  }

  lemma NonePolled(l: Lane)
    ensures LanePolled(l, l, 0)
  {
    assert l.cq[..0] == [] && l.polled + l.cq[..0] == l.polled;
  }

  lemma LaneAfterPolled(l: Lane, n: nat)
    requires n <= |l.cq|
    ensures LanePolled(l, LaneAfter(l, n), n)
  {
    LastFlaggedReports(l.cq[..n], l.triggered, l.lastTracked);
  }

  lemma PollsExact(s: State, f: Flow, ne: int)
    requires Inv(s) && ne <= |LaneOf(s, f).cq|
    ensures var t := if ne < 0 then s else PollMany(s, f, ne); var n := if ne < 0 then 0 else ne;
      && LanePolled(LaneOf(s, f), LaneOf(t, f), n) && t == WithLane(s, f, LaneOf(t, f))
      && LaneOf(t, f).nic == LaneOf(s, f).nic && LaneOf(t, f).posted == LaneOf(s, f).posted
  {
    if ne < 0 {
      NonePolled(LaneOf(s, f));
    } else {
      PollManyExact(s, f, ne);
      LaneAfterPolled(LaneOf(s, f), ne);
    }
  }

  /** Every progress call has this effect, and no other. */
  lemma ProgressExact(s: State, f: Flow, ok: nat -> bool, ne: int)
    requires Inv(s) && ne <= |LaneOf(s, f).cq|
    ensures Progressed(s, ProgressPass(s, f, ok, ne), f, ok, ne)
  {
    if f.TX? {
      var k := PostPassExact(s, ok);
      var p := PostPass(s, ok);
      PostPassLeads(s, ok);
      LeadsKeeps(s, p);
      PollsExact(p, TX, ne);
      assert HandedOver(s.tx, ProgressPass(s, f, ok, ne).tx, k);
    } else {
      PollsExact(s, RX, ne);
    }
  }

  lemma ReportsOnce(q: seq<nat>, flagged: set<nat>, before: nat, a: nat, b: nat)
    requires Reports(q, flagged, before, a) && Reports(q, flagged, before, b)
    ensures a == b
  {
    if exists i :: 0 <= i < |q| && q[i] in flagged {
      var i :| 0 <= i < |q| && q[i] == a && a in flagged && forall j :: i < j < |q| ==> q[j] !in flagged;
      var j :| 0 <= j < |q| && q[j] == b && b in flagged && forall k :: j < k < |q| ==> q[k] !in flagged;
      assert i == j;
    }
  }

  lemma FirstStaysOnce(s: State, ok: nat -> bool, j: nat, k: nat)
    requires FirstStays(s, ok, j) && FirstStays(s, ok, k)
    ensures j == k
  {
    assert Stays(s, ok, j) && Stays(s, ok, k);
  }

  /** What is said of a progress call leaves nothing open. */
  lemma ProgressedOnce(s: State, t: State, u: State, f: Flow, ok: nat -> bool, ne: int)
    requires Progressed(s, t, f, ok, ne) && Progressed(s, u, f, ok, ne)
    ensures t == u
  {
    var n := if ne < 0 then 0 else ne;
    var l := LaneOf(s, f);
    ReportsOnce(l.cq[..n], l.triggered, l.lastTracked, LaneOf(t, f).lastTracked, LaneOf(u, f).lastTracked);
    if f.TX? {
      var j: nat :| FirstStays(s, ok, j) && HandedOver(s.tx, t.tx, j);
      var k: nat :| FirstStays(s, ok, k) && HandedOver(s.tx, u.tx, k);
      FirstStaysOnce(s, ok, j, k);
    }
  }

  // ---- the stream and the NIC around it -----------------------------------------------------------------

  datatype Event = StreamRuns | NicCompletes(flow: Flow)

  /** The event happens, if it is possible. */
  function Happens(s: State, e: Event): (t: State) {
    match e
    case StreamRuns => if Enabled(s, StreamStep) then Apply(s, StreamStep) else s
    case NicCompletes(f) => if Enabled(s, NicComplete(f)) then Apply(s, NicComplete(f)) else s
  }

  /** What an event does: the stream runs its next command unless it is blocked, the NIC completes its oldest request. */
  lemma HappensIs(s: State, e: Event)
    ensures var t := Happens(s, e);
      match e
      case StreamRuns => t.executed == if s.executed < |s.issued| && !Blocked(s, s.issued[s.executed]) then s.executed + 1 else s.executed
      case NicCompletes(f) =>
        var l, m := LaneOf(s, f), LaneOf(t, f);
        if l.nic == [] then m == l else m.nic == l.nic[1..] && m.cq == l.cq + [l.nic[0]] && m.polled == l.polled
  {
  }

  function Meanwhile(s: State, events: seq<Event>): (t: State) {
    if events == [] then s else Happens(Meanwhile(s, events[..|events| - 1]), events[|events| - 1])
  }

  lemma MeanwhileNext(s: State, events: seq<Event>, i: nat)
    requires i < |events|
    ensures Meanwhile(s, events[..i + 1]) == Happens(Meanwhile(s, events[..i]), events[i])
  {
    assert events[..i + 1][..i] == events[..i];
  }

  lemma HappensLeads(s: State, e: Event)
    ensures Leads(s, Happens(s, e))
  {
    LeadsHere(s);
    match e
    case StreamRuns => if Enabled(s, StreamStep) { LeadsOn(s, s, StreamStep); }
    case NicCompletes(f) => if Enabled(s, NicComplete(f)) { LeadsOn(s, s, NicComplete(f)); }
  }

  lemma {:induction false} MeanwhileLeads(s: State, events: seq<Event>)
    ensures Leads(s, Meanwhile(s, events))
  {
    if events == [] {
      LeadsHere(s);
    } else {
      var init := events[..|events| - 1];
      MeanwhileLeads(s, init);
      HappensLeads(Meanwhile(s, init), events[|events| - 1]);
      LeadsBoth(s, Meanwhile(s, init), Meanwhile(s, events));
    }
  }

  /** How many of the events complete a request of the flow. */
  function Arrivals(events: seq<Event>, f: Flow): (n: nat) {
    if events == [] then 0
    else Arrivals(events[..|events| - 1], f) + if events[|events| - 1] == NicCompletes(f) then 1 else 0
  }

  lemma {:induction false} ArrivalsAre(events: seq<Event>, f: Flow)
    ensures Arrivals(events, f) == multiset(events)[NicCompletes(f)]
  {
    if events != [] {
      ArrivalsAre(events[..|events| - 1], f);
      assert events == events[..|events| - 1] + [events[|events| - 1]];
    }
  }

  function Least(a: nat, b: nat): (m: nat) { if a < b then a else b }

  /** A lane after n requests at most were completed by the NIC. */
  function LaneArrived(l: Lane, n: nat): (m: Lane) {
    var k := Least(n, |l.nic|);
    l.(nic := l.nic[k..], cq := l.cq + l.nic[..k])
  }

  lemma LaneArrivedNext(l: Lane, n: nat)
    ensures var m := LaneArrived(l, n); LaneArrived(l, n + 1) == if m.nic != [] then LaneComplete(m) else m
  {
    var k := Least(n, |l.nic|);
    if k < |l.nic| {
      assert l.nic[..k + 1] == l.nic[..k] + [l.nic[k]] && l.nic[k..][1..] == l.nic[k + 1..];
      assert l.cq + l.nic[..k + 1] == l.cq + l.nic[..k] + [l.nic[k]];
    }
  }

  lemma HappensLane(s: State, e: Event, f: Flow)
    ensures var l := LaneOf(s, f); LaneOf(Happens(s, e), f) == if e == NicCompletes(f) && l.nic != [] then LaneComplete(l) else l
  {
  }

  lemma ArrivedNext(s: State, e: Event, f: Flow, l: Lane, n: nat)
    requires LaneOf(s, f) == LaneArrived(l, n)
    ensures LaneOf(Happens(s, e), f) == LaneArrived(l, n + if e == NicCompletes(f) then 1 else 0)
  {
    HappensLane(s, e, f);
    LaneArrivedNext(l, n);
  }

  /** All the events do to a flow is to move requests from the NIC's queue to the CQ. */
  lemma {:induction false} MeanwhileLane(s: State, events: seq<Event>, f: Flow)
    ensures LaneOf(Meanwhile(s, events), f) == LaneArrived(LaneOf(s, f), Arrivals(events, f))
  {
    var l := LaneOf(s, f);
    if events == [] {
      assert l.nic[..0] == [] && l.cq + l.nic[..0] == l.cq;
    } else {
      var init := events[..|events| - 1];
      MeanwhileLane(s, init, f);
      ArrivedNext(Meanwhile(s, init), events[|events| - 1], f, l, Arrivals(init, f));
    }
  }

  // ---- the two together ---------------------------------------------------------------------------------

  /** What polling for ne completions returns: no more than there are, nor than are asked for. */
  function Clip(ne: int, available: nat): (n: int)
    ensures n <= CQ_POLL_COUNT && n <= available && (n < 0 <==> ne < 0) && n <= ne
    ensures 0 <= ne ==> n == ne || n == available || n == CQ_POLL_COUNT
  {
    if ne > CQ_POLL_COUNT then (if available < CQ_POLL_COUNT then available else CQ_POLL_COUNT)
    else if ne > available then available else ne
  }

  ghost predicate ProgressedAfter(a: State, t: State, f: Flow, ok: nat -> bool, polled: int) {
    Progressed(a, t, f, ok, Clip(polled, |LaneOf(a, f).cq|))
  }

  /**
    The events happen, and then flow f makes progress; polled is what ibv_poll_cq has to return. Looked
    into only where a fact is noted.
   */
  ghost predicate Turned(s: State, t: State, f: Flow, events: seq<Event>, ok: nat -> bool, polled: int) {
    forall k {:trigger Noted(k)} :: Noted(k) ==> ProgressedAfter(Meanwhile(s, events), t, f, ok, polled)
  }

  /** The completions a flow has once the events happened, in order. */
  function Waiting(l: Lane, n: nat): (q: seq<nat>) { l.cq + l.nic[..Least(n, |l.nic|)] }

  lemma LookTurned(s: State, t: State, f: Flow, events: seq<Event>, ok: nat -> bool, polled: int)
    requires Turned(s, t, f, events, ok, polled)
    ensures ProgressedAfter(Meanwhile(s, events), t, f, ok, polled)
  {
    assert Noted(0);
  }

  lemma ProgressLanes(a: State, t: State, f: Flow, ok: nat -> bool, polled: int)
    requires ProgressedAfter(a, t, f, ok, polled)
    ensures var l, m := LaneOf(a, f), LaneOf(t, f); var n := Clip(polled, |l.cq|);
      if polled < 0 then m.polled == l.polled && m.cq == l.cq
      else m.polled == l.polled + l.cq[..n] && m.cq == l.cq[n..]
    ensures forall g :: g != f ==> LaneOf(t, g) == LaneOf(a, g)
  {
  }

  lemma WaitingIs(l: Lane, m: Lane, n: nat)
    requires m == LaneArrived(l, n)
    ensures m.polled == l.polled && m.cq == Waiting(l, n)
  {
  }

  /** Of the completions there are after the events, the oldest are polled, as many as polling returns; none on an error. */
  lemma TurnPolls(s: State, t: State, f: Flow, events: seq<Event>, ok: nat -> bool, polled: int)
    requires Turned(s, t, f, events, ok, polled)
    ensures var q := Waiting(LaneOf(s, f), Arrivals(events, f)); var n := if polled < 0 then 0 else Clip(polled, |q|);
      LaneOf(t, f).polled == LaneOf(s, f).polled + q[..n] && LaneOf(t, f).cq == q[n..]
  {
    var a := Meanwhile(s, events);
    MeanwhileLane(s, events, f);
    WaitingIs(LaneOf(s, f), LaneOf(a, f), Arrivals(events, f));
    LookTurned(s, t, f, events, ok, polled);
    ProgressLanes(a, t, f, ok, polled);
  }

  /** A turn on one flow leaves the other to the events. */
  lemma TurnSpares(s: State, t: State, f: Flow, g: Flow, events: seq<Event>, ok: nat -> bool, polled: int)
    requires Turned(s, t, f, events, ok, polled) && f != g
    ensures LaneOf(t, g) == LaneArrived(LaneOf(s, g), Arrivals(events, g))
  {
    MeanwhileLane(s, events, g);
    LookTurned(s, t, f, events, ok, polled);
    ProgressLanes(Meanwhile(s, events), t, f, ok, polled);
  }
}
