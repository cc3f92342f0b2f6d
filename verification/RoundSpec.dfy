/**
  Rounds of progress on both flows, as mp_wait_all and mp_progress_all make them: what a round polls,
  and what any number of rounds comes to for a set of awaited completions.
 */
module RoundSpec {
  import opened EventSync
  import opened EventSyncInvariant
  import opened EventSyncTheorems
  import opened ProgressSpec
  import opened ProgressEffect

  // ---- one round --------------------------------------------------------------------------------------

  /** What happens around one round, and what the host's calls return in it. */
  datatype Round = Round(
    before: seq<Event>,   // stream and NIC, before the host polls the TX flow
    between: seq<Event>,  // and before it polls the RX flow
    ok: nat -> bool,      // which posts gds_post_send accepts
    txPolled: int,        // what ibv_poll_cq returns, as far as the CQ has entries
    rxPolled: int,
    gpuError: bool)       // the error check of a round that exceeded its time

  /** Polling a flow fails. */
  predicate PollFails(r: Round) { r.txPolled < 0 || r.rxPolled < 0 }

  /** Polling a flow fails, or the GPU has an error. */
  predicate Fails(r: Round) { PollFails(r) || r.gpuError }

  /** Progress on the TX flow and, unless that failed, on the RX flow. */
  ghost predicate BothTurned(s: State, t: State, r: Round) {
    if r.txPolled < 0 then Turned(s, t, TX, r.before, r.ok, r.txPolled)
    else exists u :: TwoTurns(s, u, t, r)
  }

  ghost predicate TwoTurns(s: State, u: State, t: State, r: Round) {
    Turned(s, u, TX, r.before, r.ok, r.txPolled) && Turned(u, t, RX, r.between, r.ok, r.rxPolled)
  }

  /** The same, by steps of the engine; looked into only where a fact is noted. */
  ghost predicate Rounded(s: State, t: State, r: Round) {
    forall k {:trigger Noted(k)} :: Noted(k) ==> Leads(s, t) && BothTurned(s, t, r)
  }

  lemma RoundedHalf(s: State, t: State, r: Round)
    requires Leads(s, t) && Turned(s, t, TX, r.before, r.ok, r.txPolled) && r.txPolled < 0
    ensures Rounded(s, t, r)
  {
  }

  lemma RoundedWhole(s: State, u: State, t: State, r: Round)
    requires Leads(s, t) && r.txPolled >= 0
    requires Turned(s, u, TX, r.before, r.ok, r.txPolled) && Turned(u, t, RX, r.between, r.ok, r.rxPolled)
    ensures Rounded(s, t, r)
  {
    assert TwoTurns(s, u, t, r);
  }

  /** The error check is no part of the progress made. */
  lemma RoundedSame(s: State, t: State, r: Round)
    requires Rounded(s, t, r.(gpuError := false))
    ensures Rounded(s, t, r)
  {
    LookRounded(s, t, r.(gpuError := false));
    if r.txPolled >= 0 {
      var u :| TwoTurns(s, u, t, r.(gpuError := false));
      assert TwoTurns(s, u, t, r);
    }
  }

  lemma LookRounded(s: State, t: State, r: Round)
    requires Rounded(s, t, r)
    ensures Leads(s, t) && BothTurned(s, t, r)
  {
    assert Noted(0);
  }

  /** Completions of flow f that arrive in the round before the flow is polled. */
  function ArriveFor(r: Round, f: Flow): (n: nat) {
    Arrivals(r.before, f) + if f.TX? then 0 else Arrivals(r.between, f)
  }

  function PolledFor(r: Round, f: Flow): (ne: int) { if f.TX? then r.txPolled else r.rxPolled }

  lemma ArrivedTwice(l: Lane, a: nat, b: nat)
    ensures LaneArrived(LaneArrived(l, a), b) == LaneArrived(l, a + b)
  {
    var k := Least(a, |l.nic|);
    var m := Least(b, |l.nic| - k);
    assert l.nic[k..][..m] == l.nic[k..k + m] && l.nic[k..][m..] == l.nic[k + m..];
    assert l.nic[..k] + l.nic[k..k + m] == l.nic[..k + m];
    assert l.cq + l.nic[..k] + l.nic[k..k + m] == l.cq + l.nic[..k + m];
  }

  /** What a round leaves of the completions q on a CQ when polling returns ne. */
  predicate TakenFrom(l: Lane, m: Lane, q: seq<nat>, ne: int) {
    m.polled == l.polled + if ne < 0 then [] else q[..Clip(ne, |q|)]
  }

  /** Polled from the completions waiting, with nothing lost. */
  predicate PolledFrom(l: Lane, m: Lane, n: nat, ne: int) {
    TakenFrom(l, m, Waiting(l, n), ne) && |l.polled| + |l.cq| <= |m.polled| + |m.cq|
  }

  lemma PolledThenArrived(l: Lane, m: Lane, k: Lane, n: nat, ne: int, more: nat)
    requires var q := Waiting(l, n); ne >= 0 && m.polled == l.polled + q[..Clip(ne, |q|)] && m.cq == q[Clip(ne, |q|)..]
    requires k == LaneArrived(m, more)
    ensures PolledFrom(l, k, n, ne)
  {
  }

  lemma ArrivedThenPolled(l: Lane, m: Lane, k: Lane, a: nat, b: nat, ne: int)
    requires m == LaneArrived(l, a)
    requires var q := Waiting(m, b); var n := if ne < 0 then 0 else Clip(ne, |q|); k.polled == m.polled + q[..n] && k.cq == q[n..]
    ensures PolledFrom(l, k, a + b, ne)
  {
    ArrivedTwice(l, a, b);
    assert Waiting(m, b) == LaneArrived(m, b).cq && Waiting(l, a + b) == LaneArrived(l, a + b).cq;
  }

  lemma TxPoll(s: State, u: State, t: State, r: Round)
    requires TwoTurns(s, u, t, r) && r.txPolled >= 0
    ensures PolledFrom(s.tx, t.tx, Arrivals(r.before, TX), r.txPolled)
  {
    TurnPolls(s, u, TX, r.before, r.ok, r.txPolled);
    TurnSpares(u, t, RX, TX, r.between, r.ok, r.rxPolled);
    PolledThenArrived(s.tx, u.tx, t.tx, Arrivals(r.before, TX), r.txPolled, Arrivals(r.between, TX));
  }

  lemma RxPoll(s: State, u: State, t: State, r: Round)
    requires TwoTurns(s, u, t, r)
    ensures PolledFrom(s.rx, t.rx, Arrivals(r.before, RX) + Arrivals(r.between, RX), r.rxPolled)
  {
    TurnSpares(s, u, TX, RX, r.before, r.ok, r.txPolled);
    TurnPolls(u, t, RX, r.between, r.ok, r.rxPolled);
    ArrivedThenPolled(s.rx, u.rx, t.rx, Arrivals(r.before, RX), Arrivals(r.between, RX), r.rxPolled);
  }

  /**
    A round takes on each flow, of the completions there are by the time the flow is polled, the oldest,
    as many as polling returns, and none when that fails.
   */
  lemma RoundPolls(s: State, t: State, r: Round, f: Flow)
    requires Rounded(s, t, r) && r.txPolled >= 0
    ensures PolledFrom(LaneOf(s, f), LaneOf(t, f), ArriveFor(r, f), PolledFor(r, f))
  {
    LookRounded(s, t, r);
    var u :| TwoTurns(s, u, t, r);
    if f.TX? { TxPoll(s, u, t, r); } else { RxPoll(s, u, t, r); }
  }

  /** A round ends when polling the TX flow fails: nothing is polled on either flow. */
  lemma RoundStops(s: State, t: State, r: Round)
    requires Rounded(s, t, r) && r.txPolled < 0
    ensures t.tx.polled == s.tx.polled && t.rx == LaneArrived(s.rx, Arrivals(r.before, RX))
  {
    LookRounded(s, t, r);
    TurnPolls(s, t, TX, r.before, r.ok, r.txPolled);
    TurnSpares(s, t, TX, RX, r.before, r.ok, r.txPolled);
  }

  /** No completion is lost, and one more is polled if there is one and polling returns any. */
  lemma RoundGrows(s: State, t: State, r: Round, f: Flow)
    requires Rounded(s, t, r) && !PollFails(r)
    ensures var l, m := LaneOf(s, f), LaneOf(t, f);
      && |l.polled| + |l.cq| <= |m.polled| + |m.cq| && |l.polled| <= |m.polled|
      && (PolledFor(r, f) >= 1 && l.cq != [] ==> |l.polled| < |m.polled|)
  {
    RoundPolls(s, t, r, f);
  }

  // ---- awaited completions --------------------------------------------------------------------------------

  /** Which completion a request waits for; fixed as long as its record is not released. */
  datatype Key = Key(flow: Flow, id: nat)

  predicate Polled(s: State, k: Key) { k.id in LaneOf(s, k.flow).polled }

  /** The completions of the first n requests have been polled. */
  ghost predicate AllPolled(s: State, keys: seq<Key>, n: int)
    requires n <= |keys|
  {
    forall i {:trigger Polled(s, keys[i])} :: 0 <= i < n ==> Polled(s, keys[i])
  }

  lemma AllStay(s: State, t: State, keys: seq<Key>, n: int)
    requires n <= |keys| && Extends(s, t) && AllPolled(s, keys, n)
    ensures AllPolled(t, keys, n)
  {
    forall i | 0 <= i < n ensures Polled(t, keys[i]) { assert Polled(s, keys[i]); }
  }

  lemma OneMorePolled(s: State, keys: seq<Key>, n: nat)
    requires n < |keys| && AllPolled(s, keys, n)
    ensures AllPolled(s, keys, n + 1) <==> Polled(s, keys[n])
    ensures !Polled(s, keys[n]) ==> !AllPolled(s, keys, |keys|)
  {
  }

  // ---- rounds until everything awaited is polled ---------------------------------------------------------------

  /** The machine before the first round and after each of them. */
  ghost predicate Rounds(marks: seq<State>, rounds: seq<Round>) {
    && 0 < |marks| <= |rounds| + 1
    && forall i {:trigger rounds[i]} :: 0 <= i < |marks| - 1 ==> Rounded(marks[i], marks[i + 1], rounds[i])
  }

  lemma RoundsOn(marks: seq<State>, rounds: seq<Round>, t: State)
    requires Rounds(marks, rounds) && |marks| <= |rounds| && Rounded(marks[|marks| - 1], t, rounds[|marks| - 1])
    ensures Rounds(marks + [t], rounds)
  {
    var all := marks + [t];
    forall i {:trigger rounds[i]} | 0 <= i < |all| - 1 ensures Rounded(all[i], all[i + 1], rounds[i]) {
      if i < |marks| - 1 { assert all[i + 1] == marks[i + 1]; }
    }
  }

  lemma {:induction false} RoundsLead(marks: seq<State>, rounds: seq<Round>, n: nat)
    requires Rounds(marks, rounds) && n < |marks|
    ensures Leads(marks[0], marks[n])
  {
    if n == 0 {
      LeadsHere(marks[0]);
    } else {
      RoundsLead(marks, rounds, n - 1);
      LookRounded(marks[n - 1], marks[n], rounds[n - 1]);
      LeadsBoth(marks[0], marks[n - 1], marks[n]);
    }
  }

  /** How a wait ends. An aborted one hit an assertion, the assertions being compiled in. */
  datatype Outcome = Finished(ret: int) | StillWaiting | Aborted

  const SUCCESS := Finished(0)
  const FAILURE := Finished(1)

  /** No round was made once everything awaited was polled, and none after a failed one. */
  ghost predicate NotOver(marks: seq<State>, keys: seq<Key>, rounds: seq<Round>)
    requires |marks| <= |rounds| + 1
  {
    && (forall m {:trigger marks[m]} :: 0 <= m < |marks| - 1 ==> !AllPolled(marks[m], keys, |keys|))
    && (forall m {:trigger rounds[m]} :: 0 <= m < |marks| - 2 ==> !Fails(rounds[m]))
  }

  /** The wait goes on until a round fails, all awaited completions are polled, or there are no more rounds. */
  ghost predicate Awaited(marks: seq<State>, keys: seq<Key>, rounds: seq<Round>, out: Outcome) {
    && Rounds(marks, rounds) && NotOver(marks, keys, rounds)
    && var n := |marks| - 1;
       if n > 0 && Fails(rounds[n - 1]) then out == FAILURE
       else if AllPolled(marks[n], keys, |keys|) then out == SUCCESS
       else n == |rounds| && out == StillWaiting
  }

  /** The wait is still going on. */
  ghost predicate Going(marks: seq<State>, keys: seq<Key>, rounds: seq<Round>) {
    && Rounds(marks, rounds) && NotOver(marks, keys, rounds)
    && (|marks| > 1 ==> !Fails(rounds[|marks| - 2]))
  }

  lemma GoingFrom(s: State, keys: seq<Key>, rounds: seq<Round>)
    ensures Going([s], keys, rounds)
  {
  }

  lemma GoingOn(marks: seq<State>, keys: seq<Key>, rounds: seq<Round>, t: State)
    requires Going(marks, keys, rounds) && |marks| <= |rounds| && !AllPolled(marks[|marks| - 1], keys, |keys|)
    requires Rounded(marks[|marks| - 1], t, rounds[|marks| - 1])
    ensures if Fails(rounds[|marks| - 1]) then Awaited(marks + [t], keys, rounds, FAILURE) else Going(marks + [t], keys, rounds)
  {
    var all := marks + [t];
    RoundsOn(marks, rounds, t);
    forall m {:trigger all[m]} | 0 <= m < |all| - 1 ensures !AllPolled(all[m], keys, |keys|) {
      assert all[m] == marks[m];
    }
    forall m {:trigger rounds[m]} | 0 <= m < |all| - 2 ensures !Fails(rounds[m]) {
      if m == |marks| - 2 { assert !Fails(rounds[|marks| - 2]); }
    }
  }

  lemma GoingEnds(marks: seq<State>, keys: seq<Key>, rounds: seq<Round>)
    requires Going(marks, keys, rounds)
    ensures AllPolled(marks[|marks| - 1], keys, |keys|) ==> Awaited(marks, keys, rounds, SUCCESS)
    ensures !AllPolled(marks[|marks| - 1], keys, |keys|) && |marks| == |rounds| + 1 ==> Awaited(marks, keys, rounds, StillWaiting)
  {
  }

  /** Checks that come to verdict go before the wait; unless it is success, nothing happens. */
  ghost predicate Ended(marks: seq<State>, keys: seq<Key>, rounds: seq<Round>, verdict: Outcome, out: Outcome) {
    if verdict == SUCCESS then Awaited(marks, keys, rounds, out) else |marks| == 1 && out == verdict
  }

  /** Each of the first n rounds polls both flows without an error, and for at least one completion. */
  predicate Polling(rounds: seq<Round>, n: nat)
    requires n <= |rounds|
  {
    forall i {:trigger rounds[i]} :: 0 <= i < n ==> rounds[i].txPolled >= 1 && rounds[i].rxPolled >= 1
  }

  /** n such rounds polled all, or n at least, of the completions that l had. */
  predicate Grown(l: Lane, m: Lane, n: nat) {
    |l.polled| + |l.cq| <= |m.polled| + |m.cq| && |l.polled| + Least(n, |l.cq|) <= |m.polled|
  }

  lemma GrownNext(l: Lane, m: Lane, k: Lane, n: nat)
    requires Grown(l, m, n) && |m.polled| + |m.cq| <= |k.polled| + |k.cq| && |m.polled| <= |k.polled|
    requires m.cq != [] ==> |m.polled| < |k.polled|
    ensures Grown(l, k, n + 1)
  {
  }

  lemma {:induction false} RoundsGrow(marks: seq<State>, rounds: seq<Round>, n: nat, f: Flow)
    requires Rounds(marks, rounds) && n < |marks| && Polling(rounds, n)
    ensures Grown(LaneOf(marks[0], f), LaneOf(marks[n], f), n)
  {
    if n > 0 {
      RoundsGrow(marks, rounds, n - 1, f);
      assert rounds[n - 1].txPolled >= 1;
      RoundGrows(marks[n - 1], marks[n], rounds[n - 1], f);
      GrownNext(LaneOf(marks[0], f), LaneOf(marks[n - 1], f), LaneOf(marks[n], f), n - 1);
    }
  }

  /** Every awaited completion was polled, or is there to be polled. */
  predicate Ripe(s: State, keys: seq<Key>) {
    forall i {:trigger keys[i]} :: 0 <= i < |keys| ==> Polled(s, keys[i]) || keys[i].id in LaneOf(s, keys[i].flow).cq
  }

  /** No round fails, each polls both flows for something, and there are as many as completions on either CQ. */
  predicate Enough(s: State, rounds: seq<Round>) {
    && Polling(rounds, |rounds|) && (forall i {:trigger rounds[i]} :: 0 <= i < |rounds| ==> !rounds[i].gpuError)
    && |s.tx.cq| <= |rounds| && |s.rx.cq| <= |rounds|
  }

  lemma GrownPolls(l: Lane, m: Lane, n: nat, id: nat)
    requires Grown(l, m, n) && LaneExtends(l, m) && |l.cq| <= n && (id in l.polled || id in l.cq)
    ensures id in m.polled
  {
    if id in l.cq {
      var i :| 0 <= i < |l.cq| && l.cq[i] == id;
      var p := |l.polled| + i;
      assert Line(l)[p] == id && Line(m)[p] == id && Line(m)[p] == m.polled[p];
    }
  }

  lemma {:induction false} RipeKey(marks: seq<State>, rounds: seq<Round>, k: Key)
    requires Rounds(marks, rounds) && |marks| == |rounds| + 1 && Inv(marks[0]) && Enough(marks[0], rounds)
    requires Polled(marks[0], k) || k.id in LaneOf(marks[0], k.flow).cq
    ensures Polled(marks[|rounds|], k)
  {
    var n := |rounds|;
    RoundsLead(marks, rounds, n);
    LeadsKeeps(marks[0], marks[n]);
    RoundsGrow(marks, rounds, n, k.flow);
    GrownPolls(LaneOf(marks[0], k.flow), LaneOf(marks[n], k.flow), n, k.id);
  }

  /** A wait for completions that are there ends, and successfully, within as many rounds. */
  lemma RipeEnds(marks: seq<State>, keys: seq<Key>, rounds: seq<Round>, out: Outcome)
    requires Awaited(marks, keys, rounds, out) && Inv(marks[0]) && Ripe(marks[0], keys) && Enough(marks[0], rounds)
    ensures out == SUCCESS
  {
    if |marks| == |rounds| + 1 {
      forall i | 0 <= i < |keys| ensures Polled(marks[|rounds|], keys[i]) { RipeKey(marks, rounds, keys[i]); }
    }
  }

  // ---- one round for each request that is not complete -----------------------------------------------------

  /** At its turn request r gets a round, unless it is complete. */
  ghost predicate TurnAt(marks: seq<State>, keys: seq<Key>, rounds: seq<Round>, r: nat)
    requires r < |marks| - 1 && |marks| <= |keys| + 1 && |keys| == |rounds|
  {
    if Polled(marks[r], keys[r]) then marks[r + 1] == marks[r] else Rounded(marks[r], marks[r + 1], rounds[r])
  }

  /** Request r is not complete at its turn, and polling for it fails. */
  predicate FailsAt(marks: seq<State>, keys: seq<Key>, rounds: seq<Round>, r: nat)
    requires r < |marks| && r < |keys| == |rounds|
  {
    !Polled(marks[r], keys[r]) && PollFails(rounds[r])
  }

  /** The machine before the first turn and after each; nothing failed but perhaps the last. */
  ghost predicate Turns(marks: seq<State>, keys: seq<Key>, rounds: seq<Round>) {
    && 0 < |marks| <= |keys| + 1 && |keys| == |rounds|
    && (forall r: nat {:trigger TurnAt(marks, keys, rounds, r)} :: r < |marks| - 1 ==> TurnAt(marks, keys, rounds, r))
    && (forall r: nat {:trigger FailsAt(marks, keys, rounds, r)} :: r < |marks| - 2 ==> !FailsAt(marks, keys, rounds, r))
  }

  /** How many of the first r requests were complete after their turn. */
  function SeenComplete(marks: seq<State>, keys: seq<Key>, r: nat): (k: nat)
    requires r < |marks| && r <= |keys|
  {
    if r == 0 then 0 else SeenComplete(marks, keys, r - 1) + if Polled(marks[r], keys[r - 1]) then 1 else 0
  }

  /** What mp_progress_all comes to. */
  ghost predicate ProgressedAll(marks: seq<State>, keys: seq<Key>, rounds: seq<Round>, ret: int, failed: bool) {
    && Turns(marks, keys, rounds)
    && var n := |marks| - 1;
       && (failed <==> n > 0 && FailsAt(marks, keys, rounds, n - 1))
       && if failed then ret == 1 else n == |keys| && ret == SeenComplete(marks, keys, n)
  }

  lemma TurnsOn(marks: seq<State>, keys: seq<Key>, rounds: seq<Round>, t: State)
    requires Turns(marks, keys, rounds) && |marks| <= |keys|
    requires var n := |marks| - 1;
      && (n > 0 ==> !FailsAt(marks, keys, rounds, n - 1))
      && if Polled(marks[n], keys[n]) then t == marks[n] else Rounded(marks[n], t, rounds[n])
    ensures Turns(marks + [t], keys, rounds)
  {
    var all, n := marks + [t], |marks| - 1;
    forall r: nat | r < |all| - 1 ensures TurnAt(all, keys, rounds, r) {
      if r < n { assert TurnAt(marks, keys, rounds, r); }
    }
    forall r: nat | r < |all| - 2 ensures !FailsAt(all, keys, rounds, r) {
      if r < n - 1 { assert !FailsAt(marks, keys, rounds, r); }
    }
  }

  /** Turns so far, none of which failed. */
  ghost predicate Turning(marks: seq<State>, keys: seq<Key>, rounds: seq<Round>, ret: int) {
    && Turns(marks, keys, rounds)
    && (|marks| > 1 ==> !FailsAt(marks, keys, rounds, |marks| - 2))
    && ret == SeenComplete(marks, keys, |marks| - 1)
  }

  lemma TurningFrom(s: State, keys: seq<Key>, rounds: seq<Round>)
    requires |keys| == |rounds|
    ensures Turning([s], keys, rounds, 0)
  {
  }

  lemma TurningOn(marks: seq<State>, keys: seq<Key>, rounds: seq<Round>, ret: int, t: State)
    requires Turning(marks, keys, rounds, ret) && |marks| <= |keys|
    requires var n := |marks| - 1; if Polled(marks[n], keys[n]) then t == marks[n] else Rounded(marks[n], t, rounds[n])
    ensures var n := |marks| - 1;
      if FailsAt(marks, keys, rounds, n) then ProgressedAll(marks + [t], keys, rounds, 1, true)
      else Turning(marks + [t], keys, rounds, ret + if Polled(t, keys[n]) then 1 else 0)
  {
    TurnsOn(marks, keys, rounds, t);
    SeenSame(marks, marks + [t], keys, |marks| - 1);
  }

  lemma TurningEnds(marks: seq<State>, keys: seq<Key>, rounds: seq<Round>, ret: int)
    requires Turning(marks, keys, rounds, ret) && |marks| == |keys| + 1
    ensures ProgressedAll(marks, keys, rounds, ret, false)
  {
  }

  lemma {:induction false} SeenSame(marks: seq<State>, more: seq<State>, keys: seq<Key>, r: nat)
    requires marks <= more && r < |marks| && r <= |keys|
    ensures SeenComplete(more, keys, r) == SeenComplete(marks, keys, r)
  {
    if r > 0 { SeenSame(marks, more, keys, r - 1); }
  }

  lemma {:induction false} TurnsLead(marks: seq<State>, keys: seq<Key>, rounds: seq<Round>, r: nat)
    requires Turns(marks, keys, rounds) && r < |marks|
    ensures Leads(marks[0], marks[r])
  {
    if r == 0 {
      LeadsHere(marks[0]);
    } else {
      TurnsLead(marks, keys, rounds, r - 1);
      TurnLeads(marks, keys, rounds, r - 1);
      LeadsBoth(marks[0], marks[r - 1], marks[r]);
    }
  }

  lemma TurnLeads(marks: seq<State>, keys: seq<Key>, rounds: seq<Round>, r: nat)
    requires Turns(marks, keys, rounds) && r < |marks| - 1
    ensures Leads(marks[r], marks[r + 1])
  {
    assert TurnAt(marks, keys, rounds, r);
    LeadsHere(marks[r]);
    if !Polled(marks[r], keys[r]) { LookRounded(marks[r], marks[r + 1], rounds[r]); }
  }

  /** A request whose completion heads its CQ is complete after its turn, if the round polls its flow for anything. */
  lemma {:induction false} HeadIsSeen(marks: seq<State>, keys: seq<Key>, rounds: seq<Round>, r: nat)
    requires Turns(marks, keys, rounds) && r < |marks| - 1 && !PollFails(rounds[r])
    requires var l := LaneOf(marks[r], keys[r].flow);
      keys[r].id in l.polled || (l.cq != [] && l.cq[0] == keys[r].id && PolledFor(rounds[r], keys[r].flow) >= 1)
    ensures Polled(marks[r + 1], keys[r])
    ensures SeenComplete(marks, keys, r + 1) == SeenComplete(marks, keys, r) + 1
  {
    var u, f := marks[r], keys[r].flow;
    assert TurnAt(marks, keys, rounds, r);
    if !Polled(u, keys[r]) {
      RoundPolls(u, marks[r + 1], rounds[r], f);
      var q := Waiting(LaneOf(u, f), ArriveFor(rounds[r], f));
      assert q[0] == keys[r].id && q[..Clip(PolledFor(rounds[r], f), |q|)][0] == q[0];
    }
  }

  // ---- the count in terms of what is polled before and after -------------------------------------------------

  /** How many of the first n requests have completed. */
  function PolledCount(s: State, keys: seq<Key>, n: nat): (k: nat)
    requires n <= |keys|
  {
    if n == 0 then 0 else PolledCount(s, keys, n - 1) + if Polled(s, keys[n - 1]) then 1 else 0
  }

  lemma {:induction false} CountGrows(s: State, t: State, keys: seq<Key>, n: nat)
    requires n <= |keys| && Extends(s, t)
    ensures PolledCount(s, keys, n) <= PolledCount(t, keys, n) <= n
  {
    if n > 0 { CountGrows(s, t, keys, n - 1); }
  }

  /** ret counts the first r requests, with completions polled since from. */
  predicate CountedTo(from: State, s: State, keys: seq<Key>, r: nat, ret: int)
    requires r <= |keys|
  {
    PolledCount(from, keys, r) <= ret <= PolledCount(s, keys, r)
  }

  lemma {:induction false} CountNext(s: State, u: State, t: State, keys: seq<Key>, r: nat, ret: int, more: int)
    requires r < |keys| && CountedTo(s, u, keys, r, ret) && Extends(s, t) && Extends(u, t)
    requires more == ret + if Polled(t, keys[r]) then 1 else 0
    ensures CountedTo(s, t, keys, r + 1, more)
  {
    CountGrows(u, t, keys, r);
  }

  lemma TurnsExtend(marks: seq<State>, keys: seq<Key>, rounds: seq<Round>, r: nat)
    requires Turns(marks, keys, rounds) && r < |marks| - 1 && Inv(marks[0])
    ensures Extends(marks[0], marks[r + 1]) && Extends(marks[r], marks[r + 1])
  {
    TurnsLead(marks, keys, rounds, r);
    LeadsKeeps(marks[0], marks[r]);
    TurnLeads(marks, keys, rounds, r);
    LeadsKeeps(marks[r], marks[r + 1]);
    ExtendsTransitive(marks[0], marks[r], marks[r + 1]);
  }

  lemma SeenNext(marks: seq<State>, keys: seq<Key>, r: nat)
    requires r + 1 < |marks| && r < |keys| && Extends(marks[0], marks[r + 1]) && Extends(marks[r], marks[r + 1])
    requires CountedTo(marks[0], marks[r], keys, r, SeenComplete(marks, keys, r))
    ensures CountedTo(marks[0], marks[r + 1], keys, r + 1, SeenComplete(marks, keys, r + 1))
  {
    CountNext(marks[0], marks[r], marks[r + 1], keys, r, SeenComplete(marks, keys, r), SeenComplete(marks, keys, r + 1));
  }

  lemma SeenStep(marks: seq<State>, keys: seq<Key>, rounds: seq<Round>, r: nat)
    requires Turns(marks, keys, rounds) && r < |marks| - 1 && Inv(marks[0])
    requires CountedTo(marks[0], marks[r], keys, r, SeenComplete(marks, keys, r))
    ensures CountedTo(marks[0], marks[r + 1], keys, r + 1, SeenComplete(marks, keys, r + 1))
  {
    TurnsExtend(marks, keys, rounds, r);
    SeenNext(marks, keys, r);
  }

  /** The count lies between the requests complete before and those complete after. */
  lemma {:induction false} SeenBetween(marks: seq<State>, keys: seq<Key>, rounds: seq<Round>, r: nat)
    requires Turns(marks, keys, rounds) && r < |marks| && Inv(marks[0])
    ensures CountedTo(marks[0], marks[r], keys, r, SeenComplete(marks, keys, r))
  {
    if r > 0 {
      SeenBetween(marks, keys, rounds, r - 1);
      SeenStep(marks, keys, rounds, r - 1);
    }
  }
}
