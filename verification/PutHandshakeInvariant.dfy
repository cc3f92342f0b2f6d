/** The invariant of the put handshake and its preservation by every step. */
module PutHandshakeInvariant {
  import opened PutHandshake

  /** Which iteration the source buffer is filled for. */
  function SourceOf(c: Config, s: State): (v: int) {
    if c.onGpu then (if s.stream.k == 0 then s.stream.it - 1 else s.stream.it)
    else if s.pc.Arrive? || s.pc.Fill? then s.it - 1 else s.it
  }

  predicate InOrder(c: Config, s: State) {
    && s.completed.k <= c.window && s.delivered.k <= c.window && s.stream.k <= WaitAckAt(c)
    && UpTo(s.completed, s.delivered) && UpTo(s.delivered, Handed(c, s)) && UpTo(s.stream, Queued(c, s))
  }

  /** What each side has seen complete before it got where it is. */
  predicate Seen(c: Config, s: State) {
    && (s.it < c.iters || (s.it == c.iters && s.pc.Arrive?))
    && (s.rit < c.iters || (s.rit == c.iters && s.rpc.Meet?))
    && s.completed.it >= s.it && (s.pc.Listen? ==> s.completed.it >= s.it + 1)
    && s.completed.it >= s.stream.it && (s.stream.k >= WaitAckAt(c) ==> s.completed.it >= s.stream.it + 1)
    && (s.it > 0 ==> s.ackGot >= s.it - 1)
    && (s.pc.Post? || s.pc.AwaitDone? || s.pc.Listen? ==> s.ackGot >= s.it)
    && s.ackDone <= s.ackGot <= s.ackIssued && s.ackGot <= s.ackPosted
    && s.ackIssued == (if s.rit < c.iters then s.rit else if c.iters == 0 then 0 else c.iters - 1)
    && s.ackPosted == (if s.it < c.iters then s.it else if c.iters == 0 then 0 else c.iters - 1)
    && s.delivered.it <= SignalsPosted(s)
    && (s.rpc.Check? || s.rpc.AwaitAckSent? || s.rpc.Acknowledge? ==> s.delivered.it > s.rit)
    && s.delivered.it >= s.rit
    && (s.rpc.Check? ==> s.rpc.j <= c.window)
  }

  predicate Buffers(c: Config, s: State) {
    && Sized(c, s)
    && (forall j :: 0 <= j < c.window ==> s.source[j] == SourceOf(c, s))
    && (forall j :: 0 <= j < c.window ==> s.target[j] == if j < s.delivered.k then s.delivered.it else s.delivered.it - 1)
  }

  predicate Inv(c: Config, s: State) { InOrder(c, s) && Seen(c, s) && Buffers(c, s) }

  lemma InitInv(c: Config)
    ensures Inv(c, Init(c))
  {
  }

  lemma SenderOrder(c: Config, s: State)
    requires InOrder(c, s) && Seen(c, s) && SenderCan(c, s)
    ensures InOrder(c, SenderStep(c, s))
  {
  }

  lemma SenderSeen(c: Config, s: State)
    requires InOrder(c, s) && Seen(c, s) && SenderCan(c, s)
    ensures Seen(c, SenderStep(c, s))
  {
  }

  lemma SenderBuffers(c: Config, s: State)
    requires Inv(c, s) && SenderCan(c, s)
    ensures Buffers(c, SenderStep(c, s))
  {
  }

  lemma SenderKeeps(c: Config, s: State)
    requires Inv(c, s) && Enabled(c, s, Sender)
    ensures Inv(c, Apply(c, s, Sender))
  {
    SenderOrder(c, s);
    SenderSeen(c, s);
    SenderBuffers(c, s);
  }

  lemma StreamOrder(c: Config, s: State)
    requires InOrder(c, s) && Seen(c, s) && Enabled(c, s, Stream)
    ensures InOrder(c, StreamStep(c, s))
  {
  }

  lemma StreamSeen(c: Config, s: State)
    requires InOrder(c, s) && Seen(c, s) && Enabled(c, s, Stream)
    ensures Seen(c, StreamStep(c, s))
  {
  }

  lemma StreamBuffers(c: Config, s: State)
    requires Inv(c, s) && Enabled(c, s, Stream)
    ensures Buffers(c, StreamStep(c, s))
  {
  }

  lemma StreamKeeps(c: Config, s: State)
    requires Inv(c, s) && Enabled(c, s, Stream)
    ensures Inv(c, Apply(c, s, Stream))
  {
    StreamOrder(c, s);
    StreamSeen(c, s);
    StreamBuffers(c, s);
  }

  /** A put that is delivered reads the value of its own iteration. */
  lemma SourceIsCurrent(c: Config, s: State)
    requires Inv(c, s) && Before(s.delivered, Handed(c, s)) && s.delivered.k < c.window
    ensures s.source[s.delivered.k] == s.delivered.it
  {
  }

  lemma DeliverKeeps(c: Config, s: State)
    requires Inv(c, s) && Enabled(c, s, Deliver)
    ensures Inv(c, Apply(c, s, Deliver))
  {
    if s.delivered.k < c.window { SourceIsCurrent(c, s); }
  }

  lemma ReceiverOrder(c: Config, s: State)
    requires InOrder(c, s) && Seen(c, s) && ReceiverCan(c, s)
    ensures InOrder(c, ReceiverStep(c, s))
  {
  }

  lemma AcknowledgeSeen(c: Config, s: State)
    requires InOrder(c, s) && Seen(c, s) && s.rit < c.iters && s.rpc.Acknowledge?
    ensures Seen(c, ReceiverStep(c, s))
  {
  }

  lemma ReceiverSeen(c: Config, s: State)
    requires InOrder(c, s) && Seen(c, s) && ReceiverCan(c, s)
    ensures Seen(c, ReceiverStep(c, s))
  {
    if s.rpc.Acknowledge? { AcknowledgeSeen(c, s); }
  }

  lemma ReceiverBuffers(c: Config, s: State)
    requires Inv(c, s) && ReceiverCan(c, s)
    ensures Buffers(c, ReceiverStep(c, s))
  {
  }

  lemma ReceiverKeeps(c: Config, s: State)
    requires Inv(c, s) && Enabled(c, s, Receiver)
    ensures Inv(c, Apply(c, s, Receiver))
  {
    ReceiverOrder(c, s);
    ReceiverSeen(c, s);
    ReceiverBuffers(c, s);
  }

  lemma CompleteKeeps(c: Config, s: State)
    requires Inv(c, s) && Enabled(c, s, Complete)
    ensures Inv(c, Apply(c, s, Complete))
  {
  }

  lemma AckLandsKeeps(c: Config, s: State)
    requires Inv(c, s) && Enabled(c, s, AckLands)
    ensures Inv(c, Apply(c, s, AckLands))
  {
  }

  lemma AckCompletesKeeps(c: Config, s: State)
    requires Inv(c, s) && Enabled(c, s, AckCompletes)
    ensures Inv(c, Apply(c, s, AckCompletes))
  {
  }

  lemma StepKeeps(c: Config, s: State, e: Step)
    requires Inv(c, s) && Enabled(c, s, e)
    ensures Inv(c, Apply(c, s, e))
  {
    match e
    case Sender => SenderKeeps(c, s);
    case Stream => StreamKeeps(c, s);
    case Deliver => DeliverKeeps(c, s);
    case Complete => CompleteKeeps(c, s);
    case AckLands => AckLandsKeeps(c, s);
    case AckCompletes => AckCompletesKeeps(c, s);
    case Receiver => ReceiverKeeps(c, s);
  }

  lemma {:induction false} TraceInv(c: Config, states: seq<State>, steps: seq<Step>, k: nat)
    requires Trace(c, states, steps) && k < |states|
    ensures Inv(c, states[k])
  {
    if k == 0 {
      InitInv(c);
    } else {
      TraceInv(c, states, steps, k - 1);
      StepKeeps(c, states[k - 1], steps[k - 1]);
    }
  }
}
