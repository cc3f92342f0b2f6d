/** What every run of the N-rank exchange guarantees. */
module CommExchangeTheorems {
  import opened CommExchange
  import opened CommExchangeInvariant

  // ---- credit safety ------------------------------------------------------------------------------------

  /** The credits between two ranks, from receives posted down to data sent. */
  lemma Credit(s: State, a: nat, b: nat)
    requires Inv(s) && Distinct(s, a, b)
    ensures var A, B := EndOf(s, a, b), EndOf(s, b, a);
      && A.sent <= A.values - 1 <= A.table <= B.remoteReady - 1 <= B.posted
      && A.acked <= B.got <= A.sent
      && |A.out| == (A.remoteReady - 1 - B.table) + (A.sent - B.got)
    ensures EndOf(s, a, b).out != [] ==> CanDeliver(s, a, b)
  {
    var A, B := EndOf(s, a, b), EndOf(s, b, a);
    assert Linked(s, a, b) && Linked(s, b, a);
    TransitBounds(A.out, B.table, B.got, A.remoteReady - 1, A.sent);
    TransitBounds(B.out, A.table, A.got, B.remoteReady - 1, B.sent);
  }

  /**
    In every interleaving of any number of ranks the sends from a to b never exceed the receives b has
    posted for a, so no data ever arrives without a receive.
   */
  lemma CreditSafety(states: seq<State>, steps: seq<Step>, n: nat, iters: nat, async: bool, k: nat, a: nat, b: nat)
    requires Trace(states, steps, n, iters, async) && k < |states| && a < n && b < n && a != b
    ensures EndOf(states[k], a, b).sent <= EndOf(states[k], b, a).posted
    ensures EndOf(states[k], a, b).out != [] ==> CanDeliver(states[k], a, b)
  {
    TraceInv(states, steps, n, iters, async, k);
    Credit(states[k], a, b);
  }

  /**
    When the flush of iteration i is passed, every peer's buffer holds that peer's data of iteration i,
    also when receives of later iterations were posted into the same buffer long before.
   */
  lemma FlushedData(states: seq<State>, steps: seq<Step>, n: nat, iters: nat, async: bool, k: nat, r: nat, p: nat)
    requires Trace(states, steps, n, iters, async) && k < |steps| && steps[k] == Run(r)
    requires r < n && p < n && p != r && N(states[k]) == n && states[k].ranks[r].pc == Flush
    ensures EndOf(states[k], r, p).buf == states[k].ranks[r].iter
    ensures EndOf(states[k], r, p).got == states[k].ranks[r].iter + 1
    ensures EndOf(states[k], p, r).got == states[k].ranks[r].iter + 1
  {
    var s := states[k];
    TraceInv(states, steps, n, iters, async, k);
    assert Enabled(s, steps[k]);
    assert Distinct(s, r, p) && Linked(s, r, p) && Linked(s, p, r) && FlushedFor(s, r, p);
    Credit(s, r, p);
    Credit(s, p, r);
  }

  // ---- no deadlock ----------------------------------------------------------------------------------------

  /** Nothing is on the way between any two ranks. */
  ghost predicate Quiet(s: State) {
    forall a, b {:trigger EndOf(s, a, b)} :: Distinct(s, a, b) ==>
      EndOf(s, a, b).out == [] && EndOf(s, a, b).acked >= EndOf(s, b, a).got
  }

  lemma QuietPair(s: State, a: nat, b: nat)
    requires Inv(s) && Quiet(s) && Distinct(s, a, b)
    ensures EndOf(s, a, b).table == EndOf(s, b, a).remoteReady - 1
    ensures EndOf(s, a, b).got == EndOf(s, b, a).sent
    ensures EndOf(s, a, b).acked == EndOf(s, a, b).sent
    ensures Own(s.ranks[a], EndOf(s, a, b), b) && Own(s.ranks[b], EndOf(s, b, a), a)
  {
    assert Linked(s, a, b) && Linked(s, b, a);
    assert EndOf(s, a, b).out == [] && EndOf(s, b, a).out == [];
  }

  predicate Unfinished(s: State, r: nat) { r < N(s) && !s.ranks[r].pc.Finished? }

  /** An unfinished rank that no other unfinished rank is behind. */
  ghost predicate Slowest(s: State, m: nat) {
    && Unfinished(s, m)
    && forall r {:trigger s.ranks[r]} :: 0 <= r < N(s) && !s.ranks[r].pc.Finished? ==> s.ranks[m].iter <= s.ranks[r].iter
  }

  lemma {:induction false} FindSlowest(s: State, r: nat) returns (m: nat)
    requires Unfinished(s, r)
    ensures Slowest(s, m)
    decreases s.ranks[r].iter
  {
    if j :| 0 <= j < N(s) && !s.ranks[j].pc.Finished? && s.ranks[j].iter < s.ranks[r].iter {
      m := FindSlowest(s, j);
    } else {
      m := r;
    }
  }

  /** A slowest rank waits only for ranks that are as slow and have not come as far. */
  lemma SlowestWaits(s: State, m: nat, p: nat)
    requires Inv(s) && Quiet(s) && Slowest(s, m) && s.ranks[m].pc == Wait(p) && Distinct(s, m, p)
    ensures CanRun(s, m) || (Slowest(s, p) && (s.ranks[p].pc.Recv? || s.ranks[p].pc.Ready?))
  {
    QuietPair(s, m, p);
    var g := s.ranks[p];
    assert InProgram(g, N(s), p, s.iters) && InProgram(s.ranks[m], N(s), m, s.iters);
  }

  lemma SlowestFlushes(s: State, m: nat, p: nat)
    requires Inv(s) && Quiet(s) && Slowest(s, m) && s.ranks[m].pc == Flush && Distinct(s, m, p)
    ensures FlushedFor(s, m, p) || (Slowest(s, p) && !s.ranks[p].pc.Flush?)
  {
    QuietPair(s, m, p);
    assert Linked(s, m, p);
    Credit(s, p, m);
    assert InProgram(s.ranks[p], N(s), p, s.iters) && InProgram(s.ranks[m], N(s), m, s.iters);
  }

  /** No host of an asynchronous rank has a receive left to post. */
  ghost predicate AllPosted(s: State) {
    s.async ==> forall a, b {:trigger EndOf(s, a, b)} :: Distinct(s, a, b) ==> EndOf(s, a, b).posted >= s.iters
  }

  lemma SlowestRuns(s: State, m: nat) returns (r: nat)
    requires Inv(s) && Quiet(s) && AllPosted(s) && Slowest(s, m) && !s.ranks[m].pc.Flush?
    ensures CanRun(s, r)
  {
    r := m;
    assert InProgram(s.ranks[m], N(s), m, s.iters);
    if s.ranks[m].pc.Wait? && Distinct(s, m, s.ranks[m].pc.p) {
      var p := s.ranks[m].pc.p;
      SlowestWaits(s, m, p);
      if !CanRun(s, m) {
        assert InProgram(s.ranks[p], N(s), p, s.iters);
        r := p;
      }
    }
  }

  /** While some rank is unfinished, something can happen: nobody is stuck in a wait or a flush forever. */
  lemma NoDeadlock(s: State, r: nat) returns (e: Step)
    requires Inv(s) && Unfinished(s, r)
    ensures Enabled(s, e)
  {
    if a, b :| Distinct(s, a, b) && EndOf(s, a, b).out != [] {
      Credit(s, a, b);
      e := Deliver(a, b);
    } else if a, b :| Distinct(s, a, b) && EndOf(s, a, b).acked < EndOf(s, b, a).got {
      e := Ack(a, b);
    } else if a, b :| Distinct(s, a, b) && s.async && EndOf(s, a, b).posted < s.iters {
      e := PostAhead(a, b);
    } else {
      assert Quiet(s) && AllPosted(s);
      var m := FindSlowest(s, r);
      if s.ranks[m].pc.Flush? && !Flushed(s, m) {
        var p: nat :| Distinct(s, m, p) && !FlushedFor(s, m, p);
        SlowestFlushes(s, m, p);
        m := p;
      }
      if s.ranks[m].pc.Flush? {
        e := Run(m);
      } else {
        var q := SlowestRuns(s, m);
        e := Run(q);
      }
    }
  }

  // ---- every run ends -------------------------------------------------------------------------------------

  function Sum(f: int -> int, n: nat): (v: int) {
    if n == 0 then 0 else Sum(f, n - 1) + f(n - 1)
  }

  lemma {:induction false} SumDiffers(f: int -> int, g: int -> int, n: nat, k: nat)
    requires forall i :: 0 <= i < n && i != k ==> f(i) == g(i)
    ensures Sum(g, n) - Sum(f, n) == if k < n then g(k) - f(k) else 0
  {
    if n > 0 { SumDiffers(f, g, n - 1, k); }
  }

  lemma {:induction false} SumPositive(f: int -> int, n: nat)
    requires forall i :: 0 <= i < n ==> 0 <= f(i)
    ensures 0 <= Sum(f, n)
  {
    if n > 0 { SumPositive(f, n - 1); }
  }

  /** How far into one sync_exchange a program counter is, in loop steps. */
  function Offset(pc: Pc, n: nat): (k: nat) {
    match pc
    case Recv(p) => 2 * p
    case Ready(p) => 2 * p + 1
    case Wait(p) => 2 * n + 1 + 2 * p
    case Send(p) => 2 * n + 2 + 2 * p
    case Flush => 4 * n + 2
    case Finished => 0
  }

  /** Loop steps a rank still has ahead of it. */
  function Left(g: Prog, n: nat, iters: nat): (k: int) {
    if g.pc.Finished? then 0 else (iters - g.iter) * (4 * n + 3) - Offset(g.pc, n)
  }

  /** Deliveries and completions still due on the channel from a to b, and receives to be posted ahead. */
  function Due(s: State, a: nat, b: nat): (k: int) {
    2 * |EndOf(s, a, b).out| + EndOf(s, b, a).got - EndOf(s, a, b).acked
    + if s.async then s.iters - EndOf(s, a, b).posted else 0
  }

  function LeftAt(s: State, r: int): (k: int) { if 0 <= r < N(s) then Left(s.ranks[r], N(s), s.iters) else 0 }

  function DueAt(s: State, a: int, b: int): (k: int) {
    if 0 <= a && 0 <= b && Distinct(s, a, b) then Due(s, a, b) else 0
  }

  function RowDue(s: State, a: int): (k: int) { Sum(b => DueAt(s, a, b), N(s)) }

  function AllLeft(s: State): (k: int) { Sum(r => LeftAt(s, r), N(s)) }

  function AllDue(s: State): (k: int) { Sum(a => RowDue(s, a), N(s)) }

  function Work(s: State): (k: int) { 3 * AllLeft(s) + AllDue(s) }

  /** Only the channel from a to b changed. */
  lemma DueChanges(s: State, t: State, a: nat, b: nat)
    requires N(s) == N(t) && Distinct(s, a, b)
    requires forall x, y {:trigger DueAt(t, x, y)} :: !(x == a && y == b) ==> DueAt(s, x, y) == DueAt(t, x, y)
    ensures AllDue(t) - AllDue(s) == Due(t, a, b) - Due(s, a, b)
  {
    forall x | 0 <= x < N(s) && x != a ensures RowDue(s, x) == RowDue(t, x) {
      SumDiffers(y => DueAt(s, x, y), y => DueAt(t, x, y), N(s), N(s));
    }
    SumDiffers(y => DueAt(s, a, y), y => DueAt(t, a, y), N(s), b);
    SumDiffers(x => RowDue(s, x), x => RowDue(t, x), N(s), a);
  }

  lemma DueSame(s: State, t: State)
    requires N(s) == N(t) && forall x, y {:trigger DueAt(t, x, y)} :: DueAt(s, x, y) == DueAt(t, x, y)
    ensures AllDue(t) == AllDue(s)
  {
    forall x | 0 <= x < N(s) ensures RowDue(s, x) == RowDue(t, x) {
      SumDiffers(y => DueAt(s, x, y), y => DueAt(t, x, y), N(s), N(s));
    }
    SumDiffers(x => RowDue(s, x), x => RowDue(t, x), N(s), N(s));
  }

  lemma LeftChanges(s: State, t: State, r: nat)
    requires N(s) == N(t) && r < N(s) && s.iters == t.iters
    requires forall x :: 0 <= x < N(s) && x != r ==> s.ranks[x] == t.ranks[x]
    ensures AllLeft(t) - AllLeft(s) == LeftAt(t, r) - LeftAt(s, r)
  {
    SumDiffers(x => LeftAt(s, x), x => LeftAt(t, x), N(s), r);
  }

  /** One loop step of a rank leaves it with fewer. */
  lemma StepShortens(s: State, r: nat)
    requires Inv(s) && CanRun(s, r)
    ensures LeftAt(RunStep(s, r), r) < LeftAt(s, r)
  {
    var g := s.ranks[r];
    assert InProgram(g, N(s), r, s.iters);
    if g.pc.Flush? {
      var L, d := 4 * N(s) + 3, s.iters - g.iter;
      assert d * L == (d - 1) * L + L;
    }
  }

  /** Only the end of a towards b changed, and not what it received. */
  lemma EndChanges(s: State, t: State, a: nat, b: nat, e: End)
    requires N(s) == N(t) && s.iters == t.iters && s.async == t.async && Distinct(s, a, b)
    requires t.ends == s.ends[Pair(a, b) := e] && e.got == EndOf(s, a, b).got
    ensures AllDue(t) - AllDue(s) == Due(t, a, b) - Due(s, a, b)
    ensures Due(t, a, b) - Due(s, a, b) ==
      2 * |e.out| - 2 * |EndOf(s, a, b).out| - e.acked + EndOf(s, a, b).acked
      + if s.async then EndOf(s, a, b).posted - e.posted else 0
  {
    assert forall x, y :: EndOf(t, x, y) == if x == a && y == b then e else EndOf(s, x, y);
    DueChanges(s, t, a, b);
  }

  /** What a loop step does to the end towards the peer it is about. */
  lemma RunEnd(s: State, r: nat) returns (e: End)
    requires CanRun(s, r) && !s.ranks[r].pc.Flush? && Distinct(s, r, s.ranks[r].pc.p)
    ensures var p, t := s.ranks[r].pc.p, RunStep(s, r);
      && N(t) == N(s) && t.iters == s.iters && t.async == s.async
      && t.ends == s.ends[Pair(r, p) := e] && e.got == EndOf(s, r, p).got && e.acked == EndOf(s, r, p).acked
      && |e.out| <= |EndOf(s, r, p).out| + 1 && e.posted >= EndOf(s, r, p).posted
  {
    e := EndOf(RunStep(s, r), r, s.ranks[r].pc.p);
  }

  lemma RunNoEnd(s: State, r: nat)
    requires CanRun(s, r) && (s.ranks[r].pc.Flush? || !Distinct(s, r, s.ranks[r].pc.p))
    ensures var t := RunStep(s, r); N(t) == N(s) && t.iters == s.iters && t.async == s.async && t.ends == s.ends
  {
  }

  lemma RunDue(s: State, r: nat)
    requires Inv(s) && CanRun(s, r)
    ensures AllDue(RunStep(s, r)) <= AllDue(s) + 2
  {
    var pc := s.ranks[r].pc;
    if !pc.Flush? && Distinct(s, r, pc.p) {
      var e := RunEnd(s, r);
      EndChanges(s, RunStep(s, r), r, pc.p, e);
    } else {
      RunNoEnd(s, r);
      DueSame(s, RunStep(s, r));
    }
  }

  lemma RunLess(s: State, r: nat)
    requires Inv(s) && CanRun(s, r)
    ensures Work(RunStep(s, r)) < Work(s)
  {
    StepShortens(s, r);
    LeftChanges(s, RunStep(s, r), r);
    RunDue(s, r);
  }

  /** A step about one channel moves no rank. */
  lemma DueLess(s: State, t: State, a: nat, b: nat)
    requires t.ranks == s.ranks && t.iters == s.iters && Distinct(s, a, b) && Due(t, a, b) < Due(s, a, b)
    requires forall x, y {:trigger DueAt(t, x, y)} :: !(x == a && y == b) ==> DueAt(s, x, y) == DueAt(t, x, y)
    ensures Work(t) < Work(s)
  {
    DueChanges(s, t, a, b);
    SumDiffers(x => LeftAt(s, x), x => LeftAt(t, x), N(s), N(s));
  }

  lemma EndLess(s: State, a: nat, b: nat, e: End)
    requires Distinct(s, a, b) && e.got == EndOf(s, a, b).got && |e.out| == |EndOf(s, a, b).out|
    requires e.acked >= EndOf(s, a, b).acked && e.posted >= EndOf(s, a, b).posted
    requires e.acked > EndOf(s, a, b).acked || (s.async && e.posted > EndOf(s, a, b).posted)
    ensures Work(WithEnd(s, a, b, e)) < Work(s)
  {
    var t := WithEnd(s, a, b, e);
    EndChanges(s, t, a, b, e);
    SumDiffers(x => LeftAt(s, x), x => LeftAt(t, x), N(s), N(s));
  }

  lemma DeliverLess(s: State, a: nat, b: nat)
    requires CanDeliver(s, a, b)
    ensures Work(DeliverStep(s, a, b)) < Work(s)
  {
    var t := DeliverStep(s, a, b);
    assert forall x, y :: !(x == a && y == b) && !(x == b && y == a) ==> EndOf(t, x, y) == EndOf(s, x, y);
    DueLess(s, t, a, b);
  }

  /** Every step, of whatever rank or channel, leaves less work. */
  lemma WorkDecreases(s: State, e: Step)
    requires Inv(s) && Enabled(s, e)
    ensures Work(Apply(s, e)) < Work(s)
  {
    match e
    case Run(r) => RunLess(s, r);
    case PostAhead(r, p) => EndLess(s, r, p, Irecv(EndOf(s, r, p)));
    case Deliver(a, b) => DeliverLess(s, a, b);
    case Ack(a, b) => EndLess(s, a, b, EndOf(s, a, b).(acked := EndOf(s, a, b).acked + 1));
  }

  lemma LeftPositive(s: State, r: nat)
    requires Inv(s) && r < N(s)
    ensures 0 <= LeftAt(s, r)
  {
    assert InProgram(s.ranks[r], N(s), r, s.iters);
    if !s.ranks[r].pc.Finished? {
      var L, d := 4 * N(s) + 3, s.iters - s.ranks[r].iter;
      assert d * L == (d - 1) * L + L;
      assert 0 <= (d - 1) * L;
    }
  }

  lemma DuePositive(s: State, a: nat, b: nat)
    requires Inv(s) && Distinct(s, a, b)
    ensures 0 <= DueAt(s, a, b)
  {
    Credit(s, a, b);
    assert Linked(s, a, b);
  }

  lemma WorkPositive(s: State)
    requires Inv(s)
    ensures 0 <= Work(s)
  {
    forall r | 0 <= r < N(s) ensures 0 <= LeftAt(s, r) { LeftPositive(s, r); }
    SumPositive(r => LeftAt(s, r), N(s));
    forall a, b | 0 <= a && 0 <= b && Distinct(s, a, b) ensures 0 <= DueAt(s, a, b) { DuePositive(s, a, b); }
    forall a | 0 <= a < N(s) ensures 0 <= RowDue(s, a) { SumPositive(b => DueAt(s, a, b), N(s)); }
    SumPositive(a => RowDue(s, a), N(s));
  }

  /** So a run is never longer than the work it began with, however its steps are interleaved. */
  lemma {:induction false} RunBound(states: seq<State>, steps: seq<Step>, n: nat, iters: nat, async: bool, k: nat)
    requires Trace(states, steps, n, iters, async) && k <= |steps|
    ensures k + Work(states[k]) <= Work(Init(n, iters, async)) && 0 <= Work(states[k])
  {
    TraceInv(states, steps, n, iters, async, k);
    WorkPositive(states[k]);
    if k > 0 {
      RunBound(states, steps, n, iters, async, k - 1);
      TraceInv(states, steps, n, iters, async, k - 1);
      assert Enabled(states[k - 1], steps[k - 1]);
      WorkDecreases(states[k - 1], steps[k - 1]);
    }
  }

  /** When nothing more can happen, every rank has finished and every pair exchanged once per iteration. */
  lemma CompleteExchange(states: seq<State>, steps: seq<Step>, n: nat, iters: nat, async: bool, a: nat, b: nat)
    requires Trace(states, steps, n, iters, async) && forall e :: !Enabled(states[|steps|], e)
    requires a < n && b < n && a != b
    ensures var s := states[|steps|];
      && N(s) == n && s.ranks[a] == Prog(iters, Finished)
      && EndOf(s, a, b).sent == EndOf(s, a, b).got == EndOf(s, a, b).posted == iters
      && EndOf(s, a, b).out == [] && (iters > 0 ==> EndOf(s, a, b).buf == iters - 1)
  {
    var s := states[|steps|];
    TraceInv(states, steps, n, iters, async, |steps|);
    forall r: nat | r < n ensures s.ranks[r].pc.Finished? {
      if !s.ranks[r].pc.Finished? { var e := NoDeadlock(s, r); }
    }
    assert InProgram(s.ranks[a], N(s), a, iters) && InProgram(s.ranks[b], N(s), b, iters);
    assert Linked(s, a, b) && Linked(s, b, a);
    Credit(s, a, b);
    Credit(s, b, a);
    assert !Enabled(s, Deliver(a, b)) && !Enabled(s, Deliver(b, a)) && !Enabled(s, PostAhead(a, b));
    TransitBounds(EndOf(s, a, b).out, EndOf(s, b, a).table, EndOf(s, b, a).got,
                  EndOf(s, a, b).remoteReady - 1, EndOf(s, a, b).sent);
  }
}
