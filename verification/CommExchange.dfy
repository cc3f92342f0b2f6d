/**
  Any number of ranks repeating sync_exchange or async_exchange over the COMM ready protocol: each rank
  runs its program counter, on the host or on its stream, and each ordered pair of ranks has one
  in-order channel carrying ready puts and data. In async_exchange the host posts the receives of
  later iterations ahead of the stream, into the same buffers, and the stream itself triggers each
  send, which is so in the default mode only: with event sync a send also needs the progress engine.
 */
module CommExchange {

  datatype Msg = ReadyPut(value: nat) | Data(iter: nat)

  /** Where a rank is in an exchange; a peer index equal to the rank itself, or to n, is skipped. */
  datatype Pc = Recv(p: nat) | Ready(p: nat) | Wait(p: nat) | Send(p: nat) | Flush | Finished

  datatype Prog = Prog(iter: nat, pc: Pc)

  /** What one rank keeps about one peer, and its channel to that peer. */
  datatype End = End(
    remoteReady: nat,  // remote_ready_values[peer]: the next value to put
    table: nat,        // ready_table[peer]: written by the peer
    values: nat,       // ready_values[peer]: the value to wait for
    posted: nat,       // receives posted for the peer
    got: nat,          // of these, filled
    buf: int,          // iteration whose data recv_buf[peer] holds
    sent: nat,         // sends issued to the peer
    acked: nat,        // of these, completed
    out: seq<Msg>)     // on the way to the peer

  const START := End(1, 0, 1, 0, 0, -1, 0, 0, [])

  datatype Pair = Pair(a: nat, b: nat)

  datatype State = State(iters: nat, async: bool, ranks: seq<Prog>, ends: map<Pair, End>)

  function N(s: State): (n: nat) { |s.ranks| }

  function EndOf(s: State, a: nat, b: nat): (e: End) {
    if Pair(a, b) in s.ends then s.ends[Pair(a, b)] else START
  }

  function WithEnd(s: State, a: nat, b: nat, e: End): (t: State) { s.(ends := s.ends[Pair(a, b) := e]) }

  function Goto(s: State, r: nat, pc: Pc): (t: State)
    requires r < N(s)
  {
    s.(ranks := s.ranks[r := s.ranks[r].(pc := pc)])
  }

  function Begin(iters: nat): (g: Prog) { if iters == 0 then Prog(0, Finished) else Prog(0, Recv(0)) }

  function Init(n: nat, iters: nat, async: bool): (s: State) {
    State(iters, async, seq(n, i => Begin(iters)), map[])
  }

  datatype Step =
    | Run(r: nat)                  // the host, or the stream, makes the next call of the rank
    | PostAhead(r: nat, p: nat)    // the host of an asynchronous rank posts a receive for a peer
    | Deliver(a: nat, b: nat)
    | Ack(a: nat, b: nat)

  predicate Distinct(s: State, a: nat, b: nat) { a < N(s) && b < N(s) && a != b }

  /**
    comm_flush returns when every tracked receive and send is complete; on the stream, the waits for the
    receives and the sends of this iteration are satisfied.
   */
  predicate FlushedFor(s: State, r: nat, p: nat)
    requires r < N(s)
  {
    var e := EndOf(s, r, p);
    if s.async then e.got > s.ranks[r].iter && e.acked > s.ranks[r].iter
    else e.got == e.posted && e.acked == e.sent
  }

  ghost predicate Flushed(s: State, r: nat)
    requires r < N(s)
  {
    forall p {:trigger FlushedFor(s, r, p)} :: Distinct(s, r, p) ==> FlushedFor(s, r, p)
  }

  ghost predicate CanRun(s: State, r: nat) {
    && r < N(s)
    && match s.ranks[r].pc
       case Recv(p) => p <= N(s) && (s.async && Distinct(s, r, p) ==> EndOf(s, r, p).posted > s.ranks[r].iter)
       case Ready(p) => Distinct(s, r, p)
       case Wait(p) => p <= N(s) && (Distinct(s, r, p) ==> EndOf(s, r, p).table >= EndOf(s, r, p).values)
       case Send(p) => Distinct(s, r, p)
       case Flush => Flushed(s, r)
       case Finished => false
  }

  /** A ready put always lands; data needs a posted receive. */
  predicate CanDeliver(s: State, a: nat, b: nat) {
    && Distinct(s, a, b) && EndOf(s, a, b).out != []
    && (EndOf(s, a, b).out[0].Data? ==> EndOf(s, b, a).got < EndOf(s, b, a).posted)
  }

  ghost predicate Enabled(s: State, e: Step) {
    match e
    case Run(r) => CanRun(s, r)
    case PostAhead(r, p) => s.async && Distinct(s, r, p) && EndOf(s, r, p).posted < s.iters
    case Deliver(a, b) => CanDeliver(s, a, b)
    case Ack(a, b) => Distinct(s, a, b) && EndOf(s, a, b).acked < EndOf(s, b, a).got
  }

  // ---- the calls ---------------------------------------------------------------------------------------

  function Irecv(e: End): (f: End) { e.(posted := e.posted + 1) }

  /** At its receive the stream of an asynchronous rank finds one posted. */
  function Receive(s: State, e: End): (f: End) { if s.async then e else Irecv(e) }

  function SendReady(e: End): (f: End) {
    e.(out := e.out + [ReadyPut(e.remoteReady)], remoteReady := e.remoteReady + 1)
  }

  function WaitReady(e: End): (f: End) { e.(values := e.values + 1) }

  function Isend(e: End, iter: nat): (f: End) { e.(out := e.out + [Data(iter)], sent := e.sent + 1) }

  function RunStep(s: State, r: nat): (t: State)
    requires r < N(s) && !s.ranks[r].pc.Finished?
  {
    match s.ranks[r].pc
    case Recv(p) =>
      if p >= N(s) then Goto(s, r, Wait(0))
      else if p == r then Goto(s, r, Recv(p + 1))
      else WithEnd(Goto(s, r, Ready(p)), r, p, Receive(s, EndOf(s, r, p)))
    case Ready(p) => WithEnd(Goto(s, r, Recv(p + 1)), r, p, SendReady(EndOf(s, r, p)))
    case Wait(p) =>
      if p >= N(s) then Goto(s, r, Flush)
      else if p == r then Goto(s, r, Wait(p + 1))
      else WithEnd(Goto(s, r, Send(p)), r, p, WaitReady(EndOf(s, r, p)))
    case Send(p) => WithEnd(Goto(s, r, Wait(p + 1)), r, p, Isend(EndOf(s, r, p), s.ranks[r].iter))
    case Flush =>
      var i := s.ranks[r].iter + 1;
      s.(ranks := s.ranks[r := Prog(i, if i == s.iters then Finished else Recv(0))])
  }

  function Land(e: End, m: Msg): (f: End) {
    match m
    case ReadyPut(v) => e.(table := v)
    case Data(i) => e.(got := e.got + 1, buf := i)
  }

  function DeliverStep(s: State, a: nat, b: nat): (t: State)
    requires EndOf(s, a, b).out != []
  {
    var e := EndOf(s, a, b);
    WithEnd(WithEnd(s, a, b, e.(out := e.out[1..])), b, a, Land(EndOf(s, b, a), e.out[0]))
  }

  function Apply(s: State, e: Step): (t: State)
    requires Enabled(s, e)
  {
    match e
    case Run(r) => RunStep(s, r)
    case PostAhead(r, p) => WithEnd(s, r, p, Irecv(EndOf(s, r, p)))
    case Deliver(a, b) => DeliverStep(s, a, b)
    case Ack(a, b) => WithEnd(s, a, b, EndOf(s, a, b).(acked := EndOf(s, a, b).acked + 1))
  }

  ghost predicate Trace(states: seq<State>, steps: seq<Step>, n: nat, iters: nat, async: bool) {
    && |states| == |steps| + 1 && states[0] == Init(n, iters, async)
    && forall i {:trigger steps[i]} :: 0 <= i < |steps| ==>
         Enabled(states[i], steps[i]) && states[i + 1] == Apply(states[i], steps[i])
  }
}
