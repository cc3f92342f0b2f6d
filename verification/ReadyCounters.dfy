/** The ready counters of the COMM library: 32-bit values, put by one rank and compared by the other. */
module ReadyCounters {

  const WORD: nat := 0x1_0000_0000

  function Word(k: nat): (w: nat) { k % WORD }

  // ---- one ordered pair of ranks ----------------------------------------------------------------------------

  /** The counters of the rank that gives readies, those of the rank that takes them, and the puts between. */
  datatype Pair = Pair(remote: nat, flight: seq<nat>, table: nat, values: nat)

  const START := Pair(1, [], 0, 1)

  datatype Step = Give | Land | Take

  /** ready_table[rank] is not below ready_values[rank]. */
  predicate Granted(p: Pair) { p.table >= p.values }

  predicate Enabled(p: Pair, e: Step) {
    match e
    case Give => true
    case Land => p.flight != []
    case Take => Granted(p)
  }

  function Apply(p: Pair, e: Step): (q: Pair)
    requires Enabled(p, e)
  {
    match e
    case Give => p.(flight := p.flight + [p.remote], remote := Word(p.remote + 1))
    case Land => p.(table := p.flight[0], flight := p.flight[1..])
    case Take => p.(values := Word(p.values + 1))
  }

  ghost predicate Trace(states: seq<Pair>, steps: seq<Step>) {
    && |states| == |steps| + 1 && states[0] == START
    && forall i {:trigger steps[i]} :: 0 <= i < |steps| ==>
         Enabled(states[i], steps[i]) && states[i + 1] == Apply(states[i], steps[i])
  }

  function Times(steps: seq<Step>, e: Step, k: nat): (n: nat)
    requires k <= |steps|
  {
    if k == 0 then 0 else Times(steps, e, k - 1) + if steps[k - 1] == e then 1 else 0
  }

  /** The puts in flight are the words of the readies after the first `from`. */
  predicate Flying(q: seq<nat>, from: nat) { forall i {:trigger q[i]} :: 0 <= i < |q| ==> q[i] == Word(from + 1 + i) }

  predicate Tells(p: Pair, given: nat, landed: nat, taken: nat) {
    && p.remote == Word(given + 1)
    && p.table == Word(landed)
    && p.values == Word(taken + 1)
    && given == landed + |p.flight|
    && Flying(p.flight, landed)
  }

  lemma WordNext(k: nat)
    ensures Word(Word(k) + 1) == Word(k + 1)
  {
  }

  lemma TellsNext(p: Pair, e: Step, given: nat, landed: nat, taken: nat)
    requires Tells(p, given, landed, taken) && Enabled(p, e)
    ensures Tells(Apply(p, e), if e == Give then given + 1 else given, if e == Land then landed + 1 else landed,
                  if e == Take then taken + 1 else taken)
  {
    WordNext(given + 1);
    WordNext(taken + 1);
    var q := Apply(p, e);
    if e == Land {
      assert p.flight[0] == Word(landed + 1 + 0);
      forall i | 0 <= i < |q.flight| ensures q.flight[i] == Word(landed + 2 + i) {
        assert q.flight[i] == p.flight[i + 1];
      }
    }
  }

  /** The counters tell how many readies were given, landed and taken. */
  lemma {:induction false} CountersTell(states: seq<Pair>, steps: seq<Step>, k: nat)
    requires Trace(states, steps) && k <= |steps|
    ensures Tells(states[k], Times(steps, Give, k), Times(steps, Land, k), Times(steps, Take, k))
  {
    if k > 0 {
      CountersTell(states, steps, k - 1);
      assert Enabled(states[k - 1], steps[k - 1]) && states[k] == Apply(states[k - 1], steps[k - 1]);
      TellsNext(states[k - 1], steps[k - 1], Times(steps, Give, k - 1), Times(steps, Land, k - 1),
                Times(steps, Take, k - 1));
    }
  }

  /** Below the wrap, a take is granted exactly when a ready that was not taken has landed. */
  lemma GrantedIff(p: Pair, given: nat, landed: nat, taken: nat)
    requires Tells(p, given, landed, taken) && landed < WORD && taken + 1 < WORD
    ensures Granted(p) <==> taken < landed
  {
  }

  /** However often the readies wrapped, a granted take has a ready that landed. */
  lemma GrantedMeans(p: Pair, given: nat, landed: nat, taken: nat)
    requires Tells(p, given, landed, taken) && taken + 1 < WORD && Granted(p)
    ensures taken < landed
  {
    assert Word(landed) <= landed;
  }

  /**
    With fewer than 2^32 takes, the k-th take completes only after the k-th ready was given, and so
    each ready is taken at most once.
   */
  lemma {:induction false} NeverAhead(states: seq<Pair>, steps: seq<Step>, k: nat)
    requires Trace(states, steps) && k <= |steps|
    requires Times(steps, Take, k) < WORD
    ensures Times(steps, Take, k) <= Times(steps, Land, k) <= Times(steps, Give, k)
  {
    CountersTell(states, steps, k);
    if k > 0 {
      NeverAhead(states, steps, k - 1);
      CountersTell(states, steps, k - 1);
      if steps[k - 1] == Take {
        var given, landed, taken := Times(steps, Give, k - 1), Times(steps, Land, k - 1), Times(steps, Take, k - 1);
        assert Enabled(states[k - 1], Take);
        GrantedMeans(states[k - 1], given, landed, taken);
      }
    }
  }

  /** However many puts landed between two looks at the table, none is lost. */
  lemma NoneLost(states: seq<Pair>, steps: seq<Step>, k: nat)
    requires Trace(states, steps) && k <= |steps| && states[k].flight == []
    requires Times(steps, Give, k) < WORD && Times(steps, Take, k) + 1 < WORD
    ensures Granted(states[k]) <==> Times(steps, Take, k) < Times(steps, Give, k)
  {
    NeverAhead(states, steps, k);
    CountersTell(states, steps, k);
    GrantedIff(states[k], Times(steps, Give, k), Times(steps, Land, k), Times(steps, Take, k));
  }

  // ---- where the bound is exact -----------------------------------------------------------------------------

  lemma Extend(states: seq<Pair>, steps: seq<Step>, e: Step) returns (ss: seq<Pair>, es: seq<Step>)
    requires Trace(states, steps) && Enabled(states[|steps|], e)
    ensures Trace(ss, es) && |es| == |steps| + 1 && ss[|es|] == Apply(states[|steps|], e)
    ensures forall f :: Times(es, f, |es|) == Times(steps, f, |steps|) + if f == e then 1 else 0
  {
    ss, es := states + [Apply(states[|steps|], e)], steps + [e];
    forall i | 0 <= i < |es| ensures Enabled(ss[i], es[i]) && ss[i + 1] == Apply(ss[i], es[i]) {
      if i < |steps| { assert steps[i] == es[i] && ss[i] == states[i] && ss[i + 1] == states[i + 1]; }
    }
    forall f ensures Times(es, f, |steps|) == Times(steps, f, |steps|) { TimesPrefix(steps, es, f, |steps|); }
  }

  lemma {:induction false} TimesPrefix(steps: seq<Step>, es: seq<Step>, f: Step, k: nat)
    requires k <= |steps| <= |es| && es[..|steps|] == steps
    ensures Times(es, f, k) == Times(steps, f, k)
  {
    if k > 0 {
      TimesPrefix(steps, es, f, k - 1);
      assert es[k - 1] == es[..|steps|][k - 1];
    }
  }

  /** k readies given, landed and taken one after the other. */
  lemma {:induction false} Rounds(k: nat) returns (states: seq<Pair>, steps: seq<Step>)
    requires k < WORD
    ensures Trace(states, steps) && states[|steps|].flight == []
    ensures forall f :: Times(steps, f, |steps|) == k
  {
    if k == 0 {
      states, steps := [START], [];
    } else {
      states, steps := Rounds(k - 1);
      states, steps := Extend(states, steps, Give);
      states, steps := Extend(states, steps, Land);
      CountersTell(states, steps, |steps|);
      GrantedIff(states[|steps|], k, k, k - 1);
      states, steps := Extend(states, steps, Take);
    }
  }

  /** After 2^32 - 1 readies were all taken, one more take is granted although no ready is left. */
  lemma WrapGrantsTooMuch() returns (states: seq<Pair>, steps: seq<Step>)
    ensures Trace(states, steps) && Granted(states[|steps|]) && states[|steps|].flight == []
    ensures Times(steps, Give, |steps|) == Times(steps, Take, |steps|) == WORD - 1
  {
    states, steps := Rounds(WORD - 1);
    CountersTell(states, steps, |steps|);
  }

  /** And so it goes on: the table's 2^32 - 1 is never below a counter that wrapped. */
  lemma {:induction false} WrapGrantsForever(m: nat) returns (states: seq<Pair>, steps: seq<Step>)
    ensures Trace(states, steps) && Granted(states[|steps|]) && states[|steps|].table == WORD - 1
    ensures Times(steps, Give, |steps|) == WORD - 1 && Times(steps, Take, |steps|) == WORD - 1 + m
  {
    if m == 0 {
      states, steps := WrapGrantsTooMuch();
      CountersTell(states, steps, |steps|);
    } else {
      states, steps := WrapGrantsForever(m - 1);
      states, steps := Extend(states, steps, Take);
      CountersTell(states, steps, |steps|);
    }
  }

  /** For the k-th take the counters are right in every run iff k < 2^32. */
  lemma BoundIsExact(k: nat)
    requires 0 < k
    ensures k < WORD <==>
      forall states, steps :: Trace(states, steps)
        && Times(steps, Take, |steps|) == k - 1 && Granted(states[|steps|])
        ==> k <= Times(steps, Give, |steps|)
  {
    if k < WORD {
      forall states, steps | Trace(states, steps)
        && Times(steps, Take, |steps|) == k - 1 && Granted(states[|steps|])
        ensures k <= Times(steps, Give, |steps|)
      {
        NeverAhead(states, steps, |steps|);
        CountersTell(states, steps, |steps|);
        GrantedMeans(states[|steps|], Times(steps, Give, |steps|), Times(steps, Land, |steps|), k - 1);
      }
    } else {
      var states, steps := WrapGrantsForever(k - WORD);
    }
  }

  /** The next n puts of the flight land one after the other; each overwrites the one before. */
  function LandMany(p: Pair, n: nat): (q: Pair)
    requires n <= |p.flight|
    ensures q.flight == p.flight[n..] && (n > 0 ==> q.table == p.flight[n - 1])
    ensures q.values == p.values && q.remote == p.remote
  {
    if n == 0 then p else Apply(LandMany(p, n - 1), Land)
  }

  // ---- the counters as a rank keeps them --------------------------------------------------------------------

  /** The three tables of one rank, indexed by peer. */
  class Rank {
    const remoteReady: array<nat>   // remote_ready_values: the next value to put into each peer
    const table: array<nat>         // ready_table: written by the peers
    const values: array<nat>        // ready_values: the value to wait for

    ghost predicate Valid()
      reads this, remoteReady, table, values
    {
      && remoteReady.Length == table.Length == values.Length
      && remoteReady != table && table != values && values != remoteReady
    }

    /** What the rank holds of the pair in which it gives, or takes, readies. */
    ghost predicate Gives(peer: nat, p: Pair)
      requires peer < remoteReady.Length
      reads remoteReady
    {
      remoteReady[peer] == p.remote
    }

    ghost predicate Takes(peer: nat, p: Pair)
      requires peer < table.Length && peer < values.Length
      reads table, values
    {
      table[peer] == p.table && values[peer] == p.values
    }

    constructor (size: nat)
      ensures Valid() && fresh(remoteReady) && fresh(table) && fresh(values)
      ensures remoteReady.Length == table.Length == values.Length == size
      ensures forall i :: 0 <= i < size ==> Gives(i, START) && Takes(i, START)
    {
      remoteReady := new nat[size](_ => 1);
      table := new nat[size](_ => 0);
      values := new nat[size](_ => 1);
    }

    /** comm_send_ready: the put leaves with the current value, which then goes up by one. */
    method SendReady(rank: nat, ghost p: Pair) returns (payload: nat, ghost q: Pair)
      requires Valid() && rank < remoteReady.Length && Gives(rank, p)
      modifies remoteReady
      ensures Valid() && q == Apply(p, Give) && Gives(rank, q) && q.flight == p.flight + [payload]
      ensures forall i :: 0 <= i < remoteReady.Length && i != rank ==> remoteReady[i] == old(remoteReady[i])
    {
      payload := remoteReady[rank];
      remoteReady[rank] := Word(remoteReady[rank] + 1);
      q := Apply(p, Give);
    }

    /** The NIC writes the oldest put of a peer into the table. */
    method PutLands(rank: nat, payload: nat, ghost p: Pair) returns (ghost q: Pair)
      requires Valid() && rank < table.Length && Takes(rank, p) && p.flight != [] && payload == p.flight[0]
      modifies table
      ensures Valid() && q == Apply(p, Land) && Takes(rank, q)
      ensures forall i :: 0 <= i < table.Length && i != rank ==> table[i] == old(table[i])
    {
      table[rank] := payload;
      q := Apply(p, Land);
    }

    /** comm_test_ready: takes a ready if the table grants one. */
    method TestReady(rank: nat, ghost p: Pair) returns (rdy: bool, ghost q: Pair)
      requires Valid() && rank < table.Length && Takes(rank, p)
      modifies values
      ensures Valid() && rdy == Granted(p) && q == (if rdy then Apply(p, Take) else p) && Takes(rank, q)
      ensures forall i :: 0 <= i < values.Length && i != rank ==> values[i] == old(values[i])
    {
      rdy := !(table[rank] < values[rank]);
      q := p;
      if rdy {
        values[rank] := Word(values[rank] + 1);
        q := Apply(p, Take);
      }
    }

    /** comm_wait_ready: spins while puts of the peer land; done is false if they run out first. */
    method WaitReady(rank: nat, ghost p: Pair, arrivals: seq<nat>) returns (done: bool, ghost q: Pair, ghost landed: nat)
      requires Valid() && rank < table.Length && Takes(rank, p) && arrivals <= p.flight
      modifies table, values
      ensures Valid() && landed <= |arrivals| && Takes(rank, q)
      ensures forall j :: 0 <= j < landed ==> !Granted(LandMany(p, j))
      ensures done <==> Granted(LandMany(p, landed))
      ensures q == if done then Apply(LandMany(p, landed), Take) else LandMany(p, |arrivals|)
      ensures forall i :: 0 <= i < values.Length && i != rank ==> values[i] == old(values[i]) && table[i] == old(table[i])
    {
      q, landed := p, 0;
      var i := 0;
      while table[rank] < values[rank]
        invariant i == landed <= |arrivals| && q == LandMany(p, i) && Takes(rank, q)
        invariant forall j :: 0 <= j < i ==> !Granted(LandMany(p, j))
        invariant forall k :: 0 <= k < values.Length && k != rank ==> values[k] == old(values[k]) && table[k] == old(table[k])
        decreases |arrivals| - i
      {
        if i == |arrivals| {
          return false, q, landed;
        }
        table[rank] := arrivals[i];
        i, landed := i + 1, landed + 1;
        q := Apply(q, Land);
      }
      done := true;
      values[rank] := Word(values[rank] + 1);
      q := Apply(q, Take);
    }
  }
}
