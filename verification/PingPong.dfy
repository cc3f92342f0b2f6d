/**
  The turns of the two ranks of a ping-pong: rank 0 answers what it receives, the other rank sends
  first. A receive ends only after the peer's send of the same number.
 */
module PingPong {

  /** What the loop body does, in order, for the stream as for the host. */
  datatype Event = Received(t: int) | Sent(t: int)

  /** n turns of one rank. */
  function Turns(rank: int, n: nat): (log: seq<Event>) {
    if n == 0 then []
    else Turns(rank, n - 1) + if rank == 0 then [Received(n - 1), Sent(n - 1)] else [Sent(n - 1), Received(n - 1)]
  }

  /** Turn k begins at this position of the log. */
  function At(k: int): (p: int) { 2 * k }

  /** Two events to a turn: rank 0 receives first, the other rank sends first. */
  ghost predicate Alternates(log: seq<Event>, rank: int, n: nat) {
    && |log| == 2 * n
    && forall k {:trigger At(k)} :: 0 <= k < n ==>
         && log[At(k)] == (if rank == 0 then Received(k) else Sent(k))
         && log[At(k) + 1] == (if rank == 0 then Sent(k) else Received(k))
  }

  lemma {:induction false} TurnsAlternate(rank: int, n: nat)
    ensures Alternates(Turns(rank, n), rank, n)
  {
    if n > 0 {
      TurnsAlternate(rank, n - 1);
      var was, log := Turns(rank, n - 1), Turns(rank, n);
      forall k {:trigger At(k)} | 0 <= k < n
        ensures log[At(k)] == (if rank == 0 then Received(k) else Sent(k))
        ensures log[At(k) + 1] == (if rank == 0 then Sent(k) else Received(k))
      {
        if k < n - 1 { assert log[At(k)] == was[At(k)] && log[At(k) + 1] == was[At(k) + 1]; }
      }
    }
  }

  /** The same in plain positions. */
  lemma TurnsAre(rank: int, n: nat)
    ensures var log := Turns(rank, n);
      && |log| == 2 * n
      && forall k {:trigger Received(k)} {:trigger Sent(k)} :: 0 <= k < n ==>
           if rank == 0 then log[2 * k] == Received(k) && log[2 * k + 1] == Sent(k)
           else log[2 * k] == Sent(k) && log[2 * k + 1] == Received(k)
  {
    TurnsAlternate(rank, n);
    var log := Turns(rank, n);
    forall k {:trigger Received(k)} {:trigger Sent(k)} | 0 <= k < n
      ensures if rank == 0 then log[2 * k] == Received(k) && log[2 * k + 1] == Sent(k)
              else log[2 * k] == Sent(k) && log[2 * k + 1] == Received(k)
    {
      assert At(k) == 2 * k;
    }
  }

  // ---- both ranks together ----------------------------------------------------------------------------------

  /** How far the two ranks are in their logs. */
  datatype Pace = Pace(i: nat, j: nat)

  /** The event at position i can happen when the peer is at position j: what is received was sent. */
  predicate CanRun(log: seq<Event>, i: nat, peer: seq<Event>, j: nat) {
    i < |log| && (log[i].Received? ==> j <= |peer| && Sent(log[i].t) in peer[..j])
  }

  ghost predicate Step(a: seq<Event>, b: seq<Event>, p: Pace, q: Pace) {
    || (CanRun(a, p.i, b, p.j) && q == Pace(p.i + 1, p.j))
    || (CanRun(b, p.j, a, p.i) && q == Pace(p.i, p.j + 1))
  }

  ghost predicate Run(a: seq<Event>, b: seq<Event>, path: seq<Pace>) {
    && path != [] && path[0] == Pace(0, 0)
    && forall k {:trigger path[k]} :: 0 < k < |path| ==> Step(a, b, path[k - 1], path[k])
  }

  /** Which event is at position p. */
  lemma EventAt(log: seq<Event>, rank: int, n: nat, p: nat)
    requires Alternates(log, rank, n) && p < 2 * n
    ensures log[p] == if (rank == 0) == (p % 2 == 0) then Received(p / 2) else Sent(p / 2)
  {
    assert At(p / 2) == p - p % 2;
  }

  /** Message k was sent among the first j events once its rank's turn got there. */
  lemma SentAt(log: seq<Event>, rank: int, n: nat, k: nat, j: nat)
    requires Alternates(log, rank, n) && k < n && j <= |log|
    ensures Sent(k) in log[..j] <==> j > if rank == 0 then 2 * k + 1 else 2 * k
  {
    var at := if rank == 0 then 2 * k + 1 else 2 * k;
    EventAt(log, rank, n, at);
    if j > at {
      assert log[..j][at] == Sent(k);
    }
    if Sent(k) in log[..j] {
      var p :| 0 <= p < j && log[p] == Sent(k);
      EventAt(log, rank, n, p);
    }
  }

  /** When each rank can go on: a receive of rank 0 is one event behind its send, the peer's a whole turn. */
  lemma CanRunIff(log: seq<Event>, peer: seq<Event>, rank: int, other: int, n: nat, i: nat, j: nat)
    requires Alternates(log, rank, n) && Alternates(peer, other, n) && (rank == 0 <==> other != 0)
    requires j <= 2 * n
    ensures CanRun(log, i, peer, j) <==>
            i < 2 * n && (if rank == 0 then i % 2 == 0 ==> i < j else i % 2 == 1 ==> i < j)
  {
    if i < 2 * n {
      var k := i / 2;
      EventAt(log, rank, n, i);
      SentAt(peer, other, n, k, j);
    }
  }

  /** Wherever the two ranks are before the end, one of them can go on. */
  lemma NeverStuck(a: seq<Event>, b: seq<Event>, other: int, n: nat, p: Pace)
    requires Alternates(a, 0, n) && Alternates(b, other, n) && other != 0
    requires p.i <= 2 * n && p.j <= 2 * n && p != Pace(2 * n, 2 * n)
    ensures CanRun(a, p.i, b, p.j) || CanRun(b, p.j, a, p.i)
  {
    CanRunIff(a, b, 0, other, n, p.i, p.j);
    CanRunIff(b, a, other, 0, n, p.j, p.i);
  }

  /** Where the ranks are after k events: send and answer, one event of one rank at a time. */
  function InStep(k: nat): (p: Pace)
    ensures p.i + p.j == k && -1 <= p.i - p.j <= 1
  {
    Pace(2 * ((k + 1) / 4) + (if k % 4 == 2 then 1 else 0), 2 * (k / 4) + (if k % 4 == 0 then 0 else 1))
  }

  lemma StepIsNext(a: seq<Event>, b: seq<Event>, other: int, n: nat, k: nat, q: Pace)
    requires Alternates(a, 0, n) && Alternates(b, other, n) && other != 0 && k <= 4 * n
    requires Step(a, b, InStep(k), q)
    ensures k < 4 * n && q == InStep(k + 1)
  {
    var p := InStep(k);
    CanRunIff(a, b, 0, other, n, p.i, p.j);
    CanRunIff(b, a, other, 0, n, p.j, p.i);
  }

  /**
    The ranks keep in step: there is one schedule only, neither rank is ever more than one event ahead,
    and so at most one message is under way.
   */
  lemma {:induction false} Lockstep(a: seq<Event>, b: seq<Event>, other: int, n: nat, path: seq<Pace>, k: nat)
    requires Alternates(a, 0, n) && Alternates(b, other, n) && other != 0 && Run(a, b, path) && k < |path|
    ensures k <= 4 * n && path[k] == InStep(k)
    ensures path[k].i <= 2 * n && path[k].j <= 2 * n && path[k].i + path[k].j == k && -1 <= path[k].i - path[k].j <= 1
  {
    if k > 0 {
      Lockstep(a, b, other, n, path, k - 1);
      assert Step(a, b, path[k - 1], path[k]);
      StepIsNext(a, b, other, n, k - 1, path[k]);
    }
  }

  /** However the two ranks have run so far, they can run to the end, in as many steps as there are events left. */
  lemma {:induction false} RunsToTheEnd(a: seq<Event>, b: seq<Event>, other: int, n: nat, path: seq<Pace>)
    returns (more: seq<Pace>)
    requires Alternates(a, 0, n) && Alternates(b, other, n) && other != 0 && Run(a, b, path)
    ensures Run(a, b, more) && path <= more
    ensures |more| == 4 * n + 1 && more[4 * n] == Pace(2 * n, 2 * n)
    decreases 4 * n + 1 - |path|
  {
    var p := path[|path| - 1];
    Lockstep(a, b, other, n, path, |path| - 1);
    if p == Pace(2 * n, 2 * n) {
      more := path;
    } else {
      NeverStuck(a, b, other, n, p);
      var q := if CanRun(a, p.i, b, p.j) then Pace(p.i + 1, p.j) else Pace(p.i, p.j + 1);
      assert Step(a, b, p, q);
      more := RunsToTheEnd(a, b, other, n, path + [q]);
    }
  }

  /** Two ranks that both answer wait for each other from the start. */
  lemma BothAnsweringHang(a: seq<Event>, b: seq<Event>, n: nat)
    requires Alternates(a, 0, n) && Alternates(b, 0, n) && n > 0
    ensures !CanRun(a, 0, b, 0) && !CanRun(b, 0, a, 0)
  {
    assert At(0) == 0;
  }
}
