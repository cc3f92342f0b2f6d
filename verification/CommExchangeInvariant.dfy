/** The invariant of the exchange and its preservation by every step. */
module CommExchangeInvariant {
  import opened CommExchange

  // ---- how often each call was made, read off the program counter ------------------------------------------

  /** Of the four calls about peer p in one sync_exchange, those already made. */
  function Made(pc: Pc, p: nat): (k: nat) {
    match pc
    case Recv(q) => if p < q then 2 else 0
    case Ready(q) => if p < q then 2 else if p == q then 1 else 0
    case Wait(q) => if p < q then 4 else 2
    case Send(q) => if p < q then 4 else if p == q then 3 else 2
    case Flush => 4
    case Finished => 0
  }

  /** How often the j-th of the four calls about peer p was made: receive, ready, wait, send. */
  function Calls(g: Prog, p: nat, j: nat): (k: nat) { if Made(g.pc, p) >= j then g.iter + 1 else g.iter }

  /**
    The channel q takes the table of the peer from value ready to value allReady, one put at a time,
    and its received data from count data to count allData, each tagged with its iteration.
   */
  predicate InTransit(q: seq<Msg>, ready: nat, data: nat, allReady: nat, allData: nat) {
    if q == [] then ready == allReady && data == allData
    else match q[0]
      case ReadyPut(v) => v == ready + 1 && InTransit(q[1..], ready + 1, data, allReady, allData)
      case Data(i) => i == data && InTransit(q[1..], ready, data + 1, allReady, allData)
  }

  lemma {:induction false} TransitAppends(q: seq<Msg>, ready: nat, data: nat, allReady: nat, allData: nat, m: Msg)
    requires InTransit(q, ready, data, allReady, allData)
    ensures m == ReadyPut(allReady + 1) ==> InTransit(q + [m], ready, data, allReady + 1, allData)
    ensures m == Data(allData) ==> InTransit(q + [m], ready, data, allReady, allData + 1)
  {
    if q == [] {
      assert q + [m] == [m] && [m][1..] == [];
    } else {
      assert (q + [m])[1..] == q[1..] + [m];
      match q[0]
      case ReadyPut(_) => TransitAppends(q[1..], ready + 1, data, allReady, allData, m);
      case Data(_) => TransitAppends(q[1..], ready, data + 1, allReady, allData, m);
    }
  }

  lemma {:induction false} TransitBounds(q: seq<Msg>, ready: nat, data: nat, allReady: nat, allData: nat)
    requires InTransit(q, ready, data, allReady, allData)
    ensures ready <= allReady && data <= allData && |q| == (allReady - ready) + (allData - data)
    ensures q != [] && q[0].Data? ==> data < allData
  {
    if q != [] {
      match q[0]
      case ReadyPut(_) => TransitBounds(q[1..], ready + 1, data, allReady, allData);
      case Data(_) => TransitBounds(q[1..], ready, data + 1, allReady, allData);
    }
  }

  /** The counters of an end are what the program counter of its rank says. */
  predicate Own(g: Prog, e: End, p: nat) {
    && e.posted >= Calls(g, p, 1)
    && e.remoteReady == 1 + Calls(g, p, 2)
    && e.values == 1 + Calls(g, p, 3)
    && e.sent == Calls(g, p, 4)
    && e.values <= e.table + 1
  }

  /** Receives posted: those of the program counter, or any number of the whole run ahead of it. */
  predicate Posts(async: bool, iters: nat, g: Prog, e: End, p: nat) {
    if async then e.posted <= iters else e.posted == Calls(g, p, 1)
  }

  /** The channel from an end to its peer holds exactly what was sent and has not landed. */
  predicate Carries(e: End, peer: End) {
    && e.remoteReady >= 1
    && InTransit(e.out, peer.table, peer.got, e.remoteReady - 1, e.sent)
    && e.acked <= peer.got
    && (peer.got > 0 ==> peer.buf == peer.got - 1)
  }

  predicate Linked(s: State, a: nat, b: nat)
    requires a < N(s)
  {
    && Own(s.ranks[a], EndOf(s, a, b), b) && Carries(EndOf(s, a, b), EndOf(s, b, a))
    && Posts(s.async, s.iters, s.ranks[a], EndOf(s, a, b), b)
  }

  predicate InProgram(g: Prog, n: nat, r: nat, iters: nat) {
    match g.pc
    case Recv(p) => p <= n && g.iter < iters
    case Wait(p) => p <= n && g.iter < iters
    case Ready(p) => p < n && p != r && g.iter < iters
    case Send(p) => p < n && p != r && g.iter < iters
    case Flush => g.iter < iters
    case Finished => g.iter == iters
  }

  ghost predicate Inv(s: State) {
    && (forall r {:trigger s.ranks[r]} :: 0 <= r < N(s) ==> InProgram(s.ranks[r], N(s), r, s.iters))
    && (forall a, b {:trigger Linked(s, a, b)} :: Distinct(s, a, b) ==> Linked(s, a, b))
  }

  lemma InitInv(n: nat, iters: nat, async: bool)
    ensures Inv(Init(n, iters, async))
  {
  }

  // ---- every step keeps the invariant -----------------------------------------------------------------------

  /** As far as peer b is concerned, the program is at the same point. */
  predicate SameFor(g: Prog, h: Prog, b: nat) { forall j :: 1 <= j <= 4 ==> Calls(g, b, j) == Calls(h, b, j) }

  /** A pair whose ends did not change, and whose first rank is where it was for the second. */
  lemma KeptLink(s: State, t: State, a: nat, b: nat)
    requires a < N(s) && a < N(t) && Linked(s, a, b) && SameFor(s.ranks[a], t.ranks[a], b)
    requires s.async == t.async && s.iters == t.iters
    requires EndOf(t, a, b) == EndOf(s, a, b) && EndOf(t, b, a) == EndOf(s, b, a)
    ensures Linked(t, a, b)
  {
  }

  /** Both directions of a pair, seen from one end. */
  predicate PairOk(g: Prog, e: End, peer: End, p: nat) { Own(g, e, p) && Carries(e, peer) && Carries(peer, e) }

  lemma CalledLink(s: State, t: State, r: nat, p: nat, e: End, g: Prog)
    requires Distinct(s, r, p) && Linked(s, p, r) && t == WithEnd(s.(ranks := s.ranks[r := g]), r, p, e)
    requires PairOk(g, e, EndOf(s, p, r), p) && Posts(s.async, s.iters, g, e, p)
    ensures Linked(t, r, p) && Linked(t, p, r)
  {
  }

  /** A call of rank r about peer p changes the pair's ends and is silent for everybody else. */
  lemma CallKeeps(s: State, t: State, r: nat, p: nat, e: End, g: Prog)
    requires Inv(s) && Distinct(s, r, p) && InProgram(g, N(s), r, s.iters)
    requires t == WithEnd(s.(ranks := s.ranks[r := g]), r, p, e)
    requires PairOk(g, e, EndOf(s, p, r), p) && Posts(s.async, s.iters, g, e, p)
    requires forall b: nat {:trigger SameFor(s.ranks[r], g, b)} :: Distinct(s, r, b) && b != p ==> SameFor(s.ranks[r], g, b)
    ensures Inv(t)
  {
    forall a, b | Distinct(t, a, b) ensures Linked(t, a, b) {
      assert Linked(s, a, b);
      if (a == r && b == p) || (a == p && b == r) {
        assert Linked(s, p, r);
        CalledLink(s, t, r, p, e, g);
      } else {
        assert a == r ==> SameFor(s.ranks[r], g, b);
        KeptLink(s, t, a, b);
      }
    }
  }

  /** A step that calls nothing. */
  lemma SkipKeeps(s: State, r: nat, g: Prog)
    requires Inv(s) && r < N(s) && InProgram(g, N(s), r, s.iters)
    requires forall b: nat {:trigger SameFor(s.ranks[r], g, b)} :: Distinct(s, r, b) ==> SameFor(s.ranks[r], g, b)
    ensures Inv(s.(ranks := s.ranks[r := g]))
  {
    var t := s.(ranks := s.ranks[r := g]);
    forall a, b | Distinct(t, a, b) ensures Linked(t, a, b) {
      assert Linked(s, a, b) && (a == r ==> SameFor(s.ranks[r], g, b));
      KeptLink(s, t, a, b);
    }
  }

  lemma ReceivePair(s: State, g: Prog, e: End, peer: End, p: nat)
    requires PairOk(g, e, peer, p) && g.pc == Recv(p) && Posts(s.async, s.iters, g, e, p)
    requires s.async ==> e.posted > g.iter
    ensures PairOk(g.(pc := Ready(p)), Receive(s, e), peer, p)
    ensures Posts(s.async, s.iters, g.(pc := Ready(p)), Receive(s, e), p)
  {
  }

  lemma SendReadyPair(g: Prog, e: End, peer: End, p: nat)
    requires PairOk(g, e, peer, p) && g.pc == Ready(p)
    ensures PairOk(g.(pc := Recv(p + 1)), SendReady(e), peer, p)
  {
    TransitAppends(e.out, peer.table, peer.got, e.remoteReady - 1, e.sent, ReadyPut(e.remoteReady));
  }

  lemma WaitReadyPair(g: Prog, e: End, peer: End, p: nat)
    requires PairOk(g, e, peer, p) && g.pc == Wait(p) && e.table >= e.values
    ensures PairOk(g.(pc := Send(p)), WaitReady(e), peer, p)
  {
  }

  lemma IsendPair(g: Prog, e: End, peer: End, p: nat)
    requires PairOk(g, e, peer, p) && g.pc == Send(p)
    ensures PairOk(g.(pc := Wait(p + 1)), Isend(e, g.iter), peer, p)
  {
    TransitAppends(e.out, peer.table, peer.got, e.remoteReady - 1, e.sent, Data(g.iter));
  }

  /** The loop counter passes the rank itself, or leaves a loop. */
  lemma LoopKeeps(s: State, r: nat)
    requires Inv(s) && CanRun(s, r) && (s.ranks[r].pc.Recv? || s.ranks[r].pc.Wait?) && !Distinct(s, r, s.ranks[r].pc.p)
    ensures Inv(RunStep(s, r))
  {
    var g := s.ranks[r];
    match g.pc
    case Recv(p) => SkipKeeps(s, r, g.(pc := if p >= N(s) then Wait(0) else Recv(p + 1)));
    case Wait(p) => SkipKeeps(s, r, g.(pc := if p >= N(s) then Flush else Wait(p + 1)));
  }

  /** A call about peer p is silent for the others. */
  lemma OneCall(s: State, r: nat, p: nat, h: Prog)
    requires Inv(s) && Distinct(s, r, p) && h.iter == s.ranks[r].iter
    requires var pc := s.ranks[r].pc;
      || (pc == Recv(p) && h.pc == Ready(p)) || (pc == Ready(p) && h.pc == Recv(p + 1))
      || (pc == Wait(p) && h.pc == Send(p)) || (pc == Send(p) && h.pc == Wait(p + 1))
    ensures PairOk(s.ranks[r], EndOf(s, r, p), EndOf(s, p, r), p)
    ensures Posts(s.async, s.iters, s.ranks[r], EndOf(s, r, p), p)
    ensures forall b: nat {:trigger SameFor(s.ranks[r], h, b)} :: Distinct(s, r, b) && b != p ==> SameFor(s.ranks[r], h, b)
  {
    assert Linked(s, r, p) && Linked(s, p, r);
  }

  lemma RecvStep(s: State, r: nat, p: nat)
    requires Distinct(s, r, p) && s.ranks[r].pc == Recv(p)
    ensures RunStep(s, r) ==
      WithEnd(s.(ranks := s.ranks[r := s.ranks[r].(pc := Ready(p))]), r, p, Receive(s, EndOf(s, r, p)))
  {
  }

  lemma RecvKeeps(s: State, t: State, r: nat, p: nat)
    requires Inv(s) && CanRun(s, r) && s.ranks[r].pc == Recv(p) && Distinct(s, r, p)
    requires t == WithEnd(s.(ranks := s.ranks[r := s.ranks[r].(pc := Ready(p))]), r, p, Receive(s, EndOf(s, r, p)))
    ensures Inv(t)
  {
    var g, h, e := s.ranks[r], s.ranks[r].(pc := Ready(p)), EndOf(s, r, p);
    OneCall(s, r, p, h);
    ReceivePair(s, g, e, EndOf(s, p, r), p);
    CallKeeps(s, t, r, p, Receive(s, e), h);
  }

  lemma ReadyKeeps(s: State, r: nat, p: nat)
    requires Inv(s) && CanRun(s, r) && s.ranks[r].pc == Ready(p)
    ensures Inv(RunStep(s, r))
  {
    var g, h, e := s.ranks[r], s.ranks[r].(pc := Recv(p + 1)), EndOf(s, r, p);
    OneCall(s, r, p, h);
    SendReadyPair(g, e, EndOf(s, p, r), p);
    CallKeeps(s, RunStep(s, r), r, p, SendReady(e), h);
  }

  lemma WaitKeeps(s: State, r: nat, p: nat)
    requires Inv(s) && CanRun(s, r) && s.ranks[r].pc == Wait(p) && Distinct(s, r, p)
    ensures Inv(RunStep(s, r))
  {
    var g, h, e := s.ranks[r], s.ranks[r].(pc := Send(p)), EndOf(s, r, p);
    OneCall(s, r, p, h);
    WaitReadyPair(g, e, EndOf(s, p, r), p);
    CallKeeps(s, RunStep(s, r), r, p, WaitReady(e), h);
  }

  lemma SendKeeps(s: State, r: nat, p: nat)
    requires Inv(s) && CanRun(s, r) && s.ranks[r].pc == Send(p)
    ensures Inv(RunStep(s, r))
  {
    var g, h, e := s.ranks[r], s.ranks[r].(pc := Wait(p + 1)), EndOf(s, r, p);
    OneCall(s, r, p, h);
    IsendPair(g, e, EndOf(s, p, r), p);
    CallKeeps(s, RunStep(s, r), r, p, Isend(e, g.iter), h);
  }

  lemma FlushKeeps(s: State, r: nat)
    requires Inv(s) && CanRun(s, r) && s.ranks[r].pc == Flush
    ensures Inv(RunStep(s, r))
  {
    var i := s.ranks[r].iter + 1;
    SkipKeeps(s, r, Prog(i, if i == s.iters then Finished else Recv(0)));
  }

  lemma RunKeeps(s: State, r: nat)
    requires Inv(s) && CanRun(s, r)
    ensures Inv(RunStep(s, r))
  {
    match s.ranks[r].pc
    case Recv(p) => if Distinct(s, r, p) { RecvStep(s, r, p); RecvKeeps(s, RunStep(s, r), r, p); } else { LoopKeeps(s, r); }
    case Ready(p) => ReadyKeeps(s, r, p);
    case Wait(p) => if Distinct(s, r, p) { WaitKeeps(s, r, p); } else { LoopKeeps(s, r); }
    case Send(p) => SendKeeps(s, r, p);
    case Flush => FlushKeeps(s, r);
  }

  lemma LandedLink(s: State, a: nat, b: nat)
    requires CanDeliver(s, a, b) && Linked(s, a, b) && Linked(s, b, a)
    ensures Linked(DeliverStep(s, a, b), a, b) && Linked(DeliverStep(s, a, b), b, a)
  {
  }

  /** A step about the pair a, b alone, with no rank moving. */
  lemma PairKeeps(s: State, t: State, a: nat, b: nat)
    requires Inv(s) && Distinct(s, a, b) && t.ranks == s.ranks && t.iters == s.iters && t.async == s.async
    requires Linked(t, a, b) && Linked(t, b, a)
    requires forall x, y :: !(x == a && y == b) && !(x == b && y == a) ==> EndOf(t, x, y) == EndOf(s, x, y)
    ensures Inv(t)
  {
    forall x, y | Distinct(t, x, y) ensures Linked(t, x, y) {
      if !(x == a && y == b) && !(x == b && y == a) {
        assert Linked(s, x, y);
        KeptLink(s, t, x, y);
      }
    }
  }

  lemma AckedLink(s: State, a: nat, b: nat)
    requires Enabled(s, Ack(a, b)) && Linked(s, a, b) && Linked(s, b, a)
    ensures Linked(Apply(s, Ack(a, b)), a, b) && Linked(Apply(s, Ack(a, b)), b, a)
  {
  }

  lemma DeliverKeeps(s: State, a: nat, b: nat)
    requires Inv(s) && CanDeliver(s, a, b)
    ensures Inv(DeliverStep(s, a, b))
  {
    assert Linked(s, a, b) && Linked(s, b, a);
    LandedLink(s, a, b);
    PairKeeps(s, DeliverStep(s, a, b), a, b);
  }

  lemma AckKeeps(s: State, a: nat, b: nat)
    requires Inv(s) && Enabled(s, Ack(a, b))
    ensures Inv(Apply(s, Ack(a, b)))
  {
    assert Linked(s, a, b) && Linked(s, b, a);
    AckedLink(s, a, b);
    PairKeeps(s, Apply(s, Ack(a, b)), a, b);
  }

  lemma AheadLink(s: State, r: nat, p: nat)
    requires Enabled(s, PostAhead(r, p)) && Linked(s, r, p) && Linked(s, p, r)
    ensures Linked(Apply(s, PostAhead(r, p)), r, p) && Linked(Apply(s, PostAhead(r, p)), p, r)
  {
  }

  lemma AheadKeeps(s: State, r: nat, p: nat)
    requires Inv(s) && Enabled(s, PostAhead(r, p))
    ensures Inv(Apply(s, PostAhead(r, p)))
  {
    assert Linked(s, r, p) && Linked(s, p, r);
    AheadLink(s, r, p);
    PairKeeps(s, Apply(s, PostAhead(r, p)), r, p);
  }

  /** Every step of every rank and every channel keeps the invariant. */
  lemma StepKeeps(s: State, e: Step)
    requires Inv(s) && Enabled(s, e)
    ensures Inv(Apply(s, e)) && N(Apply(s, e)) == N(s)
    ensures Apply(s, e).iters == s.iters && Apply(s, e).async == s.async
  {
    match e
    case Run(r) => RunKeeps(s, r);
    case PostAhead(r, p) => AheadKeeps(s, r, p);
    case Deliver(a, b) => DeliverKeeps(s, a, b);
    case Ack(a, b) => AckKeeps(s, a, b);
  }

  lemma {:induction false} TraceInv(states: seq<State>, steps: seq<Step>, n: nat, iters: nat, async: bool, k: nat)
    requires Trace(states, steps, n, iters, async) && k < |states|
    ensures Inv(states[k]) && N(states[k]) == n && states[k].iters == iters && states[k].async == async
  {
    if k == 0 {
      InitInv(n, iters, async);
    } else {
      TraceInv(states, steps, n, iters, async, k - 1);
      StepKeeps(states[k - 1], steps[k - 1]);
    }
  }
}
