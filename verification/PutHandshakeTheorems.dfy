/** What every run of the put handshake guarantees. */
module PutHandshakeTheorems {
  import opened PutHandshake
  import opened PutHandshakeInvariant

  // ---- what the handshake guarantees ------------------------------------------------------------------------

  /**
    While rank 1 validates iteration i, cell by cell, the whole window holds iteration i's value; also
    when only the trailing signal is waited for, for every window size and iteration count.
   */
  lemma ValidationSeesIteration(c: Config, states: seq<State>, steps: seq<Step>, k: nat, j: nat)
    requires Trace(c, states, steps) && k < |states| && states[k].rpc.Check? && j < c.window
    ensures |states[k].target| == c.window && states[k].target[j] == states[k].rit
    ensures states[k].delivered == At(states[k].rit + 1, 0)
  {
    TraceInv(c, states, steps, k);
  }

  /** The source of a put is not refilled before the put has read it. */
  lemma SourceIsStable(c: Config, states: seq<State>, steps: seq<Step>, k: nat, j: nat)
    requires Trace(c, states, steps) && k < |states| && j < c.window
    requires UpTo(states[k].delivered, At(states[k].delivered.it, j))
    requires Before(At(states[k].delivered.it, j), Handed(c, states[k]))
    ensures |states[k].source| == c.window && states[k].source[j] == states[k].delivered.it
  {
    TraceInv(c, states, steps, k);
  }

  // ---- who waits for what -----------------------------------------------------------------------------------

  /** What the barrier, the waits on puts and the acknowledgements hold back, besides the invariant. */
  predicate Paced(c: Config, s: State) {
    && (c.barrier ==> (s.pc != Arrive ==> s.rit >= s.it) && (!s.rpc.Meet? ==> s.it >= s.rit))
    && (c.barrier ==> s.it <= s.rit + 1 && s.rit <= s.it + 1)
    && (c.signalled && WaitPutAt(c) < s.stream.k ==> UpTo(At(s.stream.it, c.window), s.completed))
    && (0 < s.stream.it < c.iters ==> s.stream.it <= s.ackGot)
    && (s.rpc.Acknowledge? ==> s.rit <= s.ackDone)
    && s.ackIssued <= s.ackDone + 1
  }

  lemma SenderPaced(c: Config, s: State)
    requires Inv(c, s) && Paced(c, s) && SenderCan(c, s)
    ensures Paced(c, SenderStep(c, s))
  {
  }

  lemma ReceiverPaced(c: Config, s: State)
    requires Inv(c, s) && Paced(c, s) && ReceiverCan(c, s)
    ensures Paced(c, ReceiverStep(c, s))
  {
  }

  lemma StreamPaced(c: Config, s: State)
    requires Inv(c, s) && Paced(c, s) && Enabled(c, s, Stream)
    ensures Paced(c, StreamStep(c, s))
  {
  }

  lemma NicPaced(c: Config, s: State, e: Step)
    requires Inv(c, s) && Paced(c, s) && Enabled(c, s, e) && !e.Sender? && !e.Receiver? && !e.Stream?
    ensures Paced(c, Apply(c, s, e))
  {
  }

  lemma StepPaced(c: Config, s: State, e: Step)
    requires Inv(c, s) && Paced(c, s) && Enabled(c, s, e)
    ensures Paced(c, Apply(c, s, e))
  {
    match e
    case Sender => SenderPaced(c, s);
    case Receiver => ReceiverPaced(c, s);
    case Stream => StreamPaced(c, s);
    case _ => NicPaced(c, s, e);
  }

  lemma {:induction false} TracePaced(c: Config, states: seq<State>, steps: seq<Step>, k: nat)
    requires Trace(c, states, steps) && k < |states|
    ensures Paced(c, states[k])
  {
    if k > 0 {
      TracePaced(c, states, steps, k - 1);
      TraceInv(c, states, steps, k - 1);
      StepPaced(c, states[k - 1], steps[k - 1]);
    }
  }

  /** With the barrier, neither rank is inside an iteration the other has not reached, and they are at most one apart. */
  lemma RanksMeet(c: Config, states: seq<State>, steps: seq<Step>, k: nat)
    requires Trace(c, states, steps) && k < |states| && c.barrier
    ensures states[k].pc != Arrive ==> states[k].it <= states[k].rit
    ensures !states[k].rpc.Meet? ==> states[k].rit <= states[k].it
    ensures -1 <= states[k].it - states[k].rit <= 1
  {
    TracePaced(c, states, steps, k);
  }

  /**
    What has completed at rank 0: with signalled puts, the window before the stream goes on to the signal;
    always, the signal before the stream or the host goes on to the ack.
   */
  lemma CompletesInOrder(c: Config, states: seq<State>, steps: seq<Step>, k: nat)
    requires Trace(c, states, steps) && k < |states|
    ensures var s := states[k];
      && (c.signalled && c.window + 1 < s.stream.k ==> UpTo(At(s.stream.it, c.window), s.completed))
      && (c.window + 3 < s.stream.k ==> UpTo(At(s.stream.it + 1, 0), s.completed))
      && (s.pc == Listen ==> UpTo(At(s.it + 1, 0), s.completed))
  {
    TracePaced(c, states, steps, k);
    TraceInv(c, states, steps, k);
  }

  /**
    The acknowledgements: rank 0 posts iteration `it` only with the acks of all iterations before, its
    stream starts it only then, an ack is sent only for an iteration that was checked, and at most one
    is under way.
   */
  lemma AcksInOrder(c: Config, states: seq<State>, steps: seq<Step>, k: nat)
    requires Trace(c, states, steps) && k < |states|
    ensures var s := states[k];
      && (s.pc == Post || s.pc == AwaitDone || s.pc == Listen ==> s.it <= s.ackGot)
      && (s.stream.it < c.iters ==> s.stream.it <= s.ackGot)
      && s.ackDone <= s.ackGot <= s.ackIssued <= s.ackDone + 1 && s.ackIssued <= s.rit
  {
    TracePaced(c, states, steps, k);
    TraceInv(c, states, steps, k);
  }

  /** Whatever lands finds a posted receive: a signal, once rank 1 expects it, and an ack, once rank 0 listens for it. */
  lemma LandsInPosted(c: Config, states: seq<State>, steps: seq<Step>, k: nat)
    requires Trace(c, states, steps) && k < |states|
    ensures var s := states[k];
      && s.delivered.it <= (if s.rpc == Meet || s.rpc == Expect then s.rit else s.rit + 1)
      && s.ackGot <= s.ackPosted <= s.it
      && (s.rpc == AwaitAckSent || s.rpc == Acknowledge ==> s.rit < s.delivered.it)
  {
    TraceInv(c, states, steps, k);
  }

  predicate Over(c: Config, s: State) { s.it == c.iters && s.rit == c.iters }

  /** Until both ranks are through, something can happen: the handshake cannot lock up. */
  lemma NoDeadlock(c: Config, s: State) returns (e: Step)
    requires Inv(c, s) && !Over(c, s)
    ensures Enabled(c, s, e)
  {
    if Enabled(c, s, Complete) { e := Complete; }
    else if Enabled(c, s, Deliver) { e := Deliver; }
    else if Enabled(c, s, Stream) { e := Stream; }
    else if Enabled(c, s, AckLands) { e := AckLands; }
    else if Enabled(c, s, AckCompletes) { e := AckCompletes; }
    else if SenderCan(c, s) { e := Sender; }
    else { e := Receiver; }
  }

  // ---- every run ends ---------------------------------------------------------------------------------------

  function SenderPlace(pc: SenderPc): (k: nat) {
    match pc
    case Arrive => 0
    case Fill => 1
    case AwaitAck => 2
    case Post => 3
    case AwaitDone => 4
    case Listen => 5
  }

  function ReceiverPlace(c: Config, pc: ReceiverPc): (k: nat) {
    match pc
    case Meet => 0
    case Expect => 1
    case AwaitSignal => 2
    case Check(j) => 3 + j
    case AwaitAckSent => 4 + c.window
    case Acknowledge => 5 + c.window
  }

  /** Steps of one kind taken so far, when an iteration has `per` of them. */
  function Taken(per: nat, a: At): (n: nat) { a.it * per + a.k }

  function Progress(c: Config, s: State): (n: nat) {
    Taken(6, At(s.it, SenderPlace(s.pc))) + Taken(c.window + 5, s.stream) + Taken(c.window + 1, s.delivered)
    + Taken(c.window + 1, s.completed) + Taken(c.window + 6, At(s.rit, ReceiverPlace(c, s.rpc))) + s.ackGot + s.ackDone
  }

  lemma NextTaken(per: nat, a: At, b: At)
    requires (b.it == a.it && b.k == a.k + 1) || (b == At(a.it + 1, 0) && a.k + 1 == per)
    ensures Taken(per, b) == Taken(per, a) + 1
  {
    assert (a.it + 1) * per == a.it * per + per;
  }

  lemma SenderAdvances(c: Config, s: State)
    requires SenderCan(c, s)
    ensures Progress(c, SenderStep(c, s)) == Progress(c, s) + 1
  {
    var t := SenderStep(c, s);
    NextTaken(6, At(s.it, SenderPlace(s.pc)), At(t.it, SenderPlace(t.pc)));
  }

  lemma ReceiverAdvances(c: Config, s: State)
    requires ReceiverCan(c, s) && (s.rpc.Check? ==> s.rpc.j <= c.window)
    ensures Progress(c, ReceiverStep(c, s)) == Progress(c, s) + 1
  {
    var t := ReceiverStep(c, s);
    NextTaken(c.window + 6, At(s.rit, ReceiverPlace(c, s.rpc)), At(t.rit, ReceiverPlace(c, t.rpc)));
  }

  lemma StreamAdvances(c: Config, s: State)
    requires s.stream.k <= WaitAckAt(c)
    ensures Progress(c, StreamStep(c, s)) == Progress(c, s) + 1
  {
    NextTaken(c.window + 5, s.stream, StreamStep(c, s).stream);
  }

  lemma DeliverAdvances(c: Config, s: State)
    requires Sized(c, s) && s.delivered.k <= c.window
    ensures Progress(c, DeliverStep(c, s)) == Progress(c, s) + 1
  {
    NextTaken(c.window + 1, s.delivered, NextMessage(c, s.delivered));
  }

  /** Every step counts for exactly one. */
  lemma Advances(c: Config, s: State, e: Step)
    requires Inv(c, s) && Enabled(c, s, e)
    ensures Progress(c, Apply(c, s, e)) == Progress(c, s) + 1
  {
    match e
    case Sender => SenderAdvances(c, s);
    case Stream => StreamAdvances(c, s);
    case Deliver => DeliverAdvances(c, s);
    case Complete => NextTaken(c.window + 1, s.completed, NextMessage(c, s.completed));
    case Receiver => ReceiverAdvances(c, s);
    case AckLands =>
    case AckCompletes =>
  }

  function Limit(c: Config): (n: nat) {
    6 * c.iters + (c.window + 5) * c.iters + 2 * ((c.window + 1) * c.iters) + (c.window + 6) * c.iters + 2 * c.iters
  }

  lemma TakenBound(per: nat, a: At, iters: nat)
    requires (a.it < iters && a.k <= per) || a == At(iters, 0)
    ensures Taken(per, a) <= per * iters
  {
    if a.it < iters {
      assert (iters - a.it - 1) * per >= 0;
      assert per * iters == a.it * per + per + (iters - a.it - 1) * per;
    }
  }

  lemma ProgressBound(c: Config, s: State)
    requires Inv(c, s)
    ensures Progress(c, s) <= Limit(c)
  {
    TakenBound(6, At(s.it, SenderPlace(s.pc)), c.iters);
    TakenBound(c.window + 5, s.stream, c.iters);
    TakenBound(c.window + 1, s.delivered, c.iters);
    TakenBound(c.window + 1, s.completed, c.iters);
    TakenBound(c.window + 6, At(s.rit, ReceiverPlace(c, s.rpc)), c.iters);
  }

  /** No run is longer than this, however the two processes, the stream and the NIC are interleaved. */
  lemma {:induction false} RunBound(c: Config, states: seq<State>, steps: seq<Step>, k: nat)
    requires Trace(c, states, steps) && k <= |steps|
    ensures Progress(c, states[k]) == k <= Limit(c)
  {
    TraceInv(c, states, steps, k);
    ProgressBound(c, states[k]);
    if k > 0 {
      RunBound(c, states, steps, k - 1);
      TraceInv(c, states, steps, k - 1);
      Advances(c, states[k - 1], steps[k - 1]);
    }
  }

  /** When nothing more can happen, both ranks are through all iterations. */
  lemma RunsToTheEnd(c: Config, states: seq<State>, steps: seq<Step>)
    requires Trace(c, states, steps) && forall e :: !Enabled(c, states[|steps|], e)
    ensures Over(c, states[|steps|])
  {
    var s := states[|steps|];
    TraceInv(c, states, steps, |steps|);
    if !Over(c, s) { var e := NoDeadlock(c, s); }
  }
}
