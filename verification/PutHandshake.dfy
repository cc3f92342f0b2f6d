/**
  The put / signal / ack handshake of examples/mp_putget.c between two processes: rank 0 puts its
  window and sends a signal from its stream, rank 1 checks the window and acknowledges.

  Messages of rank 0 are numbered: in iteration `it` the puts are 0 .. window - 1 and the signal is
  `window`. Delivery and completion are in order (reliable connection), and a put reads its source
  buffer when it is delivered, not when it is queued.
 */
module PutHandshake {

  datatype Config = Config(
    window: nat,
    iters: nat,
    signalled: bool,   // every put is signalled and waited for; otherwise only the trailing signal
    onGpu: bool,       // the buffer is filled by the stream; otherwise by the host
    barrier: bool)     // both ranks meet at the top of each iteration

  /** A place in the numbering of messages, or of the commands on rank 0's stream. */
  datatype At = At(it: nat, k: nat)

  predicate Before(a: At, b: At) { a.it < b.it || (a.it == b.it && a.k < b.k) }

  predicate UpTo(a: At, b: At) { a == b || Before(a, b) }

  function NextMessage(c: Config, m: At): (n: At) {
    if m.k < c.window then At(m.it, m.k + 1) else At(m.it + 1, 0)
  }

  datatype SenderPc = Arrive | Fill | AwaitAck | Post | AwaitDone | Listen
  datatype ReceiverPc = Meet | Expect | AwaitSignal | Check(j: nat) | AwaitAckSent | Acknowledge

  datatype State = State(
    it: nat,            // rank 0: iteration and program counter
    pc: SenderPc,
    source: seq<int>,   // its buffer: iteration each cell was filled in
    stream: At,         // the next command of its stream
    delivered: At,      // messages before this one reached rank 1
    completed: At,      // and before this one completed at rank 0
    ackPosted: nat,     // receives posted for acks
    ackGot: nat,
    rit: nat,           // rank 1
    rpc: ReceiverPc,
    target: seq<int>,   // its window
    ackIssued: nat,
    ackDone: nat)

  function Filled(c: Config, v: int): (q: seq<int>) { seq(c.window, j => v) }

  function Init(c: Config): (s: State) {
    State(0, Arrive, Filled(c, -1), At(0, 0), At(0, 0), At(0, 0), 0, 0, 0, Meet, Filled(c, -1), 0, 0)
  }

  /** Commands of one iteration: fill, the puts, wait for the last put, signal, wait for it, wait for the ack. */
  function WaitPutAt(c: Config): (k: nat) { c.window + 1 }
  function SignalAt(c: Config): (k: nat) { c.window + 2 }
  function WaitSignalAt(c: Config): (k: nat) { c.window + 3 }
  function WaitAckAt(c: Config): (k: nat) { c.window + 4 }

  /** Commands before this one are on the stream. */
  function Queued(c: Config, s: State): (a: At) {
    match s.pc
    case Arrive | Fill => At(s.it, 0)
    case AwaitAck | Post => At(s.it, 1)
    case AwaitDone | Listen => At(s.it, WaitAckAt(c))
  }

  /** Messages before this one were handed to the NIC by the stream. */
  function Handed(c: Config, s: State): (m: At) {
    if s.stream.k == 0 then At(s.stream.it, 0)
    else if s.stream.k <= WaitPutAt(c) then At(s.stream.it, s.stream.k - 1)
    else if s.stream.k == SignalAt(c) then At(s.stream.it, c.window)
    else At(s.stream.it + 1, 0)
  }

  predicate StreamBlocked(c: Config, s: State) {
    || (s.stream.k == WaitPutAt(c) && c.signalled && Before(s.completed, At(s.stream.it, c.window)))
    || (s.stream.k == WaitSignalAt(c) && Before(s.completed, At(s.stream.it + 1, 0)))
    || (s.stream.k == WaitAckAt(c) && s.stream.it < c.iters - 1 && s.ackGot <= s.stream.it)
  }

  /** Receives rank 1 has posted for signals. */
  function SignalsPosted(s: State): (n: nat) { if s.rpc.Meet? || s.rpc.Expect? then s.rit else s.rit + 1 }

  datatype Step = Sender | Stream | Deliver | Complete | AckLands | AckCompletes | Receiver

  predicate SenderCan(c: Config, s: State) {
    && s.it < c.iters
    && match s.pc
       case Arrive => c.barrier ==> s.rit >= s.it
       case AwaitAck => s.it > 0 ==> s.ackGot >= s.it
       case AwaitDone => !Before(s.completed, At(s.it + 1, 0))
       case _ => true
  }

  predicate ReceiverCan(c: Config, s: State) {
    && s.rit < c.iters
    && match s.rpc
       case Meet => c.barrier ==> s.it >= s.rit
       case AwaitSignal => s.delivered.it > s.rit
       case AwaitAckSent => s.rit > 0 ==> s.ackDone >= s.rit
       case _ => true
  }

  predicate Enabled(c: Config, s: State, e: Step) {
    match e
    case Sender => SenderCan(c, s)
    case Stream => Before(s.stream, Queued(c, s)) && !StreamBlocked(c, s)
    case Deliver => Before(s.delivered, Handed(c, s)) && (s.delivered.k == c.window ==> s.delivered.it < SignalsPosted(s))
    case Complete => Before(s.completed, s.delivered)
    case AckLands => s.ackGot < s.ackIssued && s.ackGot < s.ackPosted
    case AckCompletes => s.ackDone < s.ackGot
    case Receiver => ReceiverCan(c, s)
  }

  function SenderStep(c: Config, s: State): (t: State)
    requires SenderCan(c, s)
  {
    match s.pc
    case Arrive => s.(pc := Fill)
    case Fill => s.(pc := AwaitAck, source := if c.onGpu then s.source else Filled(c, s.it))
    case AwaitAck => s.(pc := Post)
    case Post => s.(pc := AwaitDone)
    case AwaitDone => s.(pc := Listen)
    case Listen => s.(it := s.it + 1, pc := Arrive, ackPosted := if s.it < c.iters - 1 then s.ackPosted + 1 else s.ackPosted)
  }

  /** In the last iteration the wait for an ack is not queued: the place is passed without a command. */
  function StreamStep(c: Config, s: State): (t: State) {
    var a := s.stream;
    if a.k == 0 then s.(stream := At(a.it, 1), source := if c.onGpu then Filled(c, a.it) else s.source)
    else if a.k < WaitAckAt(c) then s.(stream := At(a.it, a.k + 1))
    else s.(stream := At(a.it + 1, 0))
  }

  function DeliverStep(c: Config, s: State): (t: State)
    requires s.delivered.k < c.window ==> s.delivered.k < |s.source| && s.delivered.k < |s.target|
  {
    var m := s.delivered;
    if m.k < c.window then
      s.(delivered := NextMessage(c, m), target := s.target[m.k := s.source[m.k]])
    else s.(delivered := NextMessage(c, m))
  }

  function ReceiverStep(c: Config, s: State): (t: State)
    requires ReceiverCan(c, s)
  {
    match s.rpc
    case Meet => s.(rpc := Expect)
    case Expect => s.(rpc := AwaitSignal)
    case AwaitSignal => s.(rpc := Check(0))
    case Check(j) => if j < c.window then s.(rpc := Check(j + 1)) else s.(rpc := AwaitAckSent)
    case AwaitAckSent => s.(rpc := Acknowledge)
    case Acknowledge => s.(rit := s.rit + 1, rpc := Meet, ackIssued := if s.rit < c.iters - 1 then s.ackIssued + 1 else s.ackIssued)
  }

  predicate Sized(c: Config, s: State) { |s.source| == |s.target| == c.window }

  function Apply(c: Config, s: State, e: Step): (t: State)
    requires Sized(c, s) && Enabled(c, s, e)
  {
    match e
    case Sender => SenderStep(c, s)
    case Stream => StreamStep(c, s)
    case Deliver => DeliverStep(c, s)
    case Complete => s.(completed := NextMessage(c, s.completed))
    case AckLands => s.(ackGot := s.ackGot + 1)
    case AckCompletes => s.(ackDone := s.ackDone + 1)
    case Receiver => ReceiverStep(c, s)
  }

  ghost predicate Trace(c: Config, states: seq<State>, steps: seq<Step>) {
    && |states| == |steps| + 1 && states[0] == Init(c)
    && forall i {:trigger steps[i]} :: 0 <= i < |steps| ==>
         Sized(c, states[i]) && Enabled(c, states[i], steps[i]) && states[i + 1] == Apply(c, states[i], steps[i])
  }
}
