/** sync_exchange as its loops make the calls, and the rank programs of the exchange as the same calls. */
module SyncExchange {
  import opened CommExchange
  import opened CommExchangeInvariant

  datatype Call = IrecvCall(p: nat) | ReadyCall(p: nat) | WaitCall(p: nat) | IsendCall(p: nat) | FlushCall

  /** The calls of the first loop for the peers below k. */
  function Posts(me: nat, k: nat): (calls: seq<Call>) {
    if k == 0 then [] else Posts(me, k - 1) + if k - 1 == me then [] else [IrecvCall(k - 1), ReadyCall(k - 1)]
  }

  /** The calls of the second loop for the peers below k. */
  function Talks(me: nat, k: nat): (calls: seq<Call>) {
    if k == 0 then [] else Talks(me, k - 1) + if k - 1 == me then [] else [WaitCall(k - 1), IsendCall(k - 1)]
  }

  function Others(me: nat, k: nat): (n: nat) { if me < k then k - 1 else k }

  /** Where a peer comes among the others. */
  function Nth(me: nat, p: nat): (i: nat) { if me < p then p - 1 else p }

  lemma {:induction false} PostsAt(me: nat, k: nat, p: nat)
    requires p < k && p != me
    ensures |Posts(me, k)| == 2 * Others(me, k) && Nth(me, p) < Others(me, k)
    ensures Posts(me, k)[2 * Nth(me, p)] == IrecvCall(p) && Posts(me, k)[2 * Nth(me, p) + 1] == ReadyCall(p)
  {
    PostsLength(me, k - 1);
    if p < k - 1 { PostsAt(me, k - 1, p); }
  }

  lemma {:induction false} PostsLength(me: nat, k: nat)
    ensures |Posts(me, k)| == 2 * Others(me, k)
  {
    if k > 0 { PostsLength(me, k - 1); }
  }

  lemma {:induction false} TalksAt(me: nat, k: nat, p: nat)
    requires p < k && p != me
    ensures |Talks(me, k)| == 2 * Others(me, k) && Nth(me, p) < Others(me, k)
    ensures Talks(me, k)[2 * Nth(me, p)] == WaitCall(p) && Talks(me, k)[2 * Nth(me, p) + 1] == IsendCall(p)
  {
    TalksLength(me, k - 1);
    if p < k - 1 { TalksAt(me, k - 1, p); }
  }

  lemma {:induction false} TalksLength(me: nat, k: nat)
    ensures |Talks(me, k)| == 2 * Others(me, k)
  {
    if k > 0 { TalksLength(me, k - 1); }
  }

  /**
    Call by call: a receive and a ready for each of the others, in order, before anything else; then a
    wait and a send for each; then the flush.
   */
  lemma CallsAre(me: nat, n: nat, p: nat)
    requires me < n && p < n && p != me
    ensures var calls, i, m := Posts(me, n) + Talks(me, n) + [FlushCall], if me < p then p - 1 else p, 2 * (n - 1);
      && |calls| == 2 * m + 1 && calls[2 * m] == FlushCall && 2 * i + 1 < m
      && calls[2 * i] == IrecvCall(p) && calls[2 * i + 1] == ReadyCall(p)
      && calls[m + 2 * i] == WaitCall(p) && calls[m + 2 * i + 1] == IsendCall(p)
  {
    PostsAt(me, n, p);
    TalksAt(me, n, p);
  }

  /** sync_exchange: every peer gets a receive and a ready, then every peer is waited for and sent to. */
  method SyncExchange(commSize: nat, myRank: nat) returns (calls: seq<Call>, nRreqs: nat, nSreqs: nat)
    requires myRank < commSize
    ensures calls == Posts(myRank, commSize) + Talks(myRank, commSize) + [FlushCall]
    ensures nRreqs == nSreqs == commSize - 1
  {
    calls, nRreqs, nSreqs := [], 0, 0;
    var peer := 0;
    while peer < commSize
      invariant peer <= commSize && calls == Posts(myRank, peer) && nRreqs == Others(myRank, peer)
    {
      if peer != myRank {
        calls := calls + [IrecvCall(peer), ReadyCall(peer)];
        nRreqs := nRreqs + 1;
      }
      peer := peer + 1;
    }
    peer := 0;
    while peer < commSize
      invariant peer <= commSize && nSreqs == Others(myRank, peer)
      invariant calls == Posts(myRank, commSize) + Talks(myRank, peer)
    {
      ghost var was := calls;
      if peer != myRank {
        calls := calls + [WaitCall(peer), IsendCall(peer)];
        nSreqs := nSreqs + 1;
      }
      assert calls == was + if peer == myRank then [] else [WaitCall(peer), IsendCall(peer)];
      peer := peer + 1;
    }
    calls := calls + [FlushCall];
  }

  // ---- the program counter makes the same calls -------------------------------------------------------------

  /** The call a rank makes at pc; none when the loop only moves on. */
  function CallAt(pc: Pc, n: nat, me: nat): (calls: seq<Call>) {
    match pc
    case Recv(p) => if p >= n || p == me then [] else [IrecvCall(p)]
    case Ready(p) => [ReadyCall(p)]
    case Wait(p) => if p >= n || p == me then [] else [WaitCall(p)]
    case Send(p) => [IsendCall(p)]
    case Flush => [FlushCall]
    case Finished => []
  }

  /** Where the rank goes next in the same exchange. */
  function Next(pc: Pc, n: nat, me: nat): (q: Pc)
    requires !pc.Flush? && !pc.Finished?
  {
    match pc
    case Recv(p) => if p >= n then Wait(0) else if p == me then Recv(p + 1) else Ready(p)
    case Ready(p) => Recv(p + 1)
    case Wait(p) => if p >= n then Flush else if p == me then Wait(p + 1) else Send(p)
    case Send(p) => Wait(p + 1)
  }

  function Rest(pc: Pc, n: nat): (k: int) {
    match pc
    case Recv(p) => 4 * n + 4 - 2 * p
    case Ready(p) => 4 * n + 3 - 2 * p
    case Wait(p) => 2 * n + 2 - 2 * p
    case Send(p) => 2 * n + 1 - 2 * p
    case Flush => 0
    case Finished => 0
  }

  /** The calls from pc to the end of the exchange. */
  function From(pc: Pc, n: nat, me: nat): (calls: seq<Call>)
    requires InProgram(Prog(0, pc), n, me, 1) || pc.Finished?
    decreases Rest(pc, n)
  {
    if pc.Finished? then []
    else if pc.Flush? then [FlushCall]
    else CallAt(pc, n, me) + From(Next(pc, n, me), n, me)
  }

  lemma {:induction false} FromWait(n: nat, me: nat, p: nat)
    requires p <= n && me < n
    ensures Talks(me, p) + From(Wait(p), n, me) == Talks(me, n) + [FlushCall]
    decreases n - p
  {
    if p == n {
      assert From(Wait(n), n, me) == [] + From(Flush, n, me);
    } else {
      FromWait(n, me, p + 1);
      var rest := From(Wait(p + 1), n, me);
      if p == me {
        assert From(Wait(p), n, me) == [] + rest;
        assert Talks(me, p + 1) == Talks(me, p) + [];
      } else {
        assert From(Send(p), n, me) == [IsendCall(p)] + rest;
        assert From(Wait(p), n, me) == [WaitCall(p)] + From(Send(p), n, me);
        assert Talks(me, p) + From(Wait(p), n, me) == Talks(me, p) + [WaitCall(p), IsendCall(p)] + rest;
      }
    }
  }

  lemma {:induction false} FromRecv(n: nat, me: nat, p: nat)
    requires p <= n && me < n
    ensures Posts(me, p) + From(Recv(p), n, me) == Posts(me, n) + Talks(me, n) + [FlushCall]
    decreases n - p
  {
    if p == n {
      FromWait(n, me, 0);
      assert From(Recv(n), n, me) == [] + From(Wait(0), n, me);
      assert Talks(me, 0) + From(Wait(0), n, me) == From(Wait(0), n, me);
      assert Posts(me, n) + (Talks(me, n) + [FlushCall]) == Posts(me, n) + Talks(me, n) + [FlushCall];
    } else {
      FromRecv(n, me, p + 1);
      var rest := From(Recv(p + 1), n, me);
      if p == me {
        assert From(Recv(p), n, me) == [] + rest;
        assert Posts(me, p + 1) == Posts(me, p) + [];
      } else {
        assert From(Ready(p), n, me) == [ReadyCall(p)] + rest;
        assert From(Recv(p), n, me) == [IrecvCall(p)] + From(Ready(p), n, me);
        assert Posts(me, p) + From(Recv(p), n, me) == Posts(me, p) + [IrecvCall(p), ReadyCall(p)] + rest;
      }
    }
  }

  /** One exchange of a rank program makes exactly the calls of sync_exchange, in its order. */
  lemma ProgramIsExchange(n: nat, me: nat)
    requires me < n
    ensures From(Recv(0), n, me) == Posts(me, n) + Talks(me, n) + [FlushCall]
  {
    FromRecv(n, me, 0);
    assert Posts(me, 0) + From(Recv(0), n, me) == From(Recv(0), n, me);
  }

  /** What a call does to the end it is about. */
  function Effect(e: End, c: Call, iter: nat): (f: End) {
    match c
    case IrecvCall(_) => Irecv(e)
    case ReadyCall(_) => SendReady(e)
    case WaitCall(_) => WaitReady(e)
    case IsendCall(_) => Isend(e, iter)
    case FlushCall => e
  }

  /** A step of a rank makes the call at its program counter, and only that. */
  lemma StepMakesCall(s: State, r: nat)
    requires Inv(s) && CanRun(s, r) && !s.async
    ensures var g, t := s.ranks[r], RunStep(s, r);
      && |CallAt(g.pc, N(s), r)| <= 1
      && (!g.pc.Flush? ==> t.ranks[r] == g.(pc := Next(g.pc, N(s), r)))
      && (forall p: nat :: EndOf(t, r, p) ==
            if CallAt(g.pc, N(s), r) != [] && !g.pc.Flush? && g.pc.p == p
            then Effect(EndOf(s, r, p), CallAt(g.pc, N(s), r)[0], g.iter) else EndOf(s, r, p))
  {
    assert InProgram(s.ranks[r], N(s), r, s.iters);
  }
}
