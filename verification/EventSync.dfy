/**
  The event-sync protocol of one client: host calls, the GPU stream, the NIC and the progress
  engine as one transition system.

  A request is known by the id it drew from the client's counter. Each flow is a lane of four
  queues through which an id moves once, in order: the posted list, the NIC's work queue, the
  completion queue, and the completions already polled.
 */
module EventSync {

  const UINT_MAX: nat := 0xFFFF_FFFF

  datatype Flow = TX | RX

  /** What the host can queue on the client's stream. */
  datatype Cmd =
    | Trigger(id: nat)                 // last_trigger_id[TX] := id
    | WaitTracked(flow: Flow, id: nat) // block until last_tracked_id[flow] >= id
    | Kernel(tag: nat)

  datatype Lane = Lane(
    posted: seq<nat>,
    nic: seq<nat>,
    cq: seq<nat>,
    polled: seq<nat>,
    triggered: set<nat>,     // requests whose `trigger` flag is set
    lastPostedTracked: nat,
    lastTracked: nat)

  datatype State = State(
    lastReqId: nat,
    lastPostedTrigger: nat,
    lastTrigger: nat,
    prepared: set<nat>,      // made by mp_send_prepare, not yet accepted by a post call
    tx: Lane,
    rx: Lane,
    issued: seq<Cmd>,        // every command ever queued on the stream
    executed: nat,           // how many of them the stream has run
    fault: bool)             // the assertion on last_tracked_id failed

  /** Ids handed to the NIC so far, in hand-over order. */
  function Handed(l: Lane): (h: seq<nat>) { l.polled + l.cq + l.nic }

  /** Every id accepted on the flow, in acceptance order. */
  function Line(l: Lane): (q: seq<nat>) { Handed(l) + l.posted }

  /** No queue, set or flag mentions id. */
  predicate Unused(s: State, id: nat) {
    && id !in s.prepared && id !in Line(s.tx) && id !in Line(s.rx)
    && id !in s.tx.triggered && id !in s.rx.triggered
  }

  function LaneOf(s: State, f: Flow): (l: Lane) { if f.TX? then s.tx else s.rx }

  function WithLane(s: State, f: Flow, l: Lane): (t: State) {
    if f.TX? then s.(tx := l) else s.(rx := l)
  }

  const EMPTY_LANE := Lane([], [], [], [], {}, 0, 0)
  const INIT := State(0, 0, 0, {}, EMPTY_LANE, EMPTY_LANE, [], 0, false)

  datatype Step =
    // host calls
    | IsendOnStream
    | SendOnStream
    | SendPrepare
    | IsendPost(id: nat)
    | SendPost(id: nat)
    | Irecv
    | IsendNow
    | PutNowait               // unsignalled mp_iput: draws an id, leaves no completion
    | WaitOnStream(flow: Flow, id: nat)
    | Launch(tag: nat)
    // stream, NIC and progress engine
    | StreamStep
    | NicPost(ok: bool)
    | NicComplete(flow: Flow)
    | Poll(flow: Flow)

  predicate Blocked(s: State, c: Cmd) {
    c.WaitTracked? && LaneOf(s, c.flow).lastTracked < c.id
  }

  /**
    Which steps the code can take in a state. A stream wait is taken on any request, be it prepared only
    or an unsignalled put.
   */
  predicate Enabled(s: State, e: Step) {
    match e
    case IsendOnStream | SendOnStream | SendPrepare | Irecv | IsendNow | PutNowait => s.lastReqId < UINT_MAX
    case IsendPost(id) => id in s.prepared || id in s.tx.posted
    case SendPost(id) => id in s.prepared || id in s.tx.posted
    case WaitOnStream(f, id) => id in Line(LaneOf(s, f)) || (f.TX? && 1 <= id <= s.lastReqId)
    case Launch(_) => true
    case StreamStep => s.executed < |s.issued| && !Blocked(s, s.issued[s.executed])
    case NicPost(_) => s.tx.posted != [] && s.tx.posted[0] <= s.lastTrigger
    case NicComplete(f) => LaneOf(s, f).nic != []
    case Poll(f) => LaneOf(s, f).cq != []
  }

  // ---- host calls -------------------------------------------------------------------------

  function Queue(s: State, c: Cmd): (t: State) { s.(issued := s.issued + [c]) }

  /** Accept request id for deferred posting: trigger write on the stream, tail of the posted list. */
  function Accept(s: State, id: nat): (t: State) {
    Queue(s, Trigger(id)).(
      lastPostedTrigger := id,
      prepared := s.prepared - {id},
      tx := s.tx.(posted := s.tx.posted + [id]))
  }

  /** The wait itself: dropped when a wait for at least this id is already queued on the flow. */
  function TrackWait(s: State, f: Flow, id: nat): (t: State) {
    var l := LaneOf(s, f);
    if l.lastPostedTracked < id then
      Queue(WithLane(s, f, l.(lastPostedTracked := id, triggered := l.triggered + {id})), WaitTracked(f, id))
    else s
  }

  function Fresh(s: State): (t: State) { s.(lastReqId := s.lastReqId + 1) }

  function IsendPostCall(s: State, id: nat): (t: State) {
    if id <= s.lastPostedTrigger then s else Accept(s, id)
  }

  function SendPostCall(s: State, id: nat): (t: State) {
    if id <= s.lastPostedTrigger then s else TrackWait(Accept(s, id), TX, id)
  }

  function WaitCall(s: State, f: Flow, id: nat): (t: State) {
    if id in LaneOf(s, f).polled then s else TrackWait(s, f, id)
  }

  // ---- stream, NIC, progress engine ---------------------------------------------------------

  function StreamExec(s: State): (t: State)
    requires Enabled(s, StreamStep)
  {
    var t := s.(executed := s.executed + 1);
    match s.issued[s.executed]
    case Trigger(id) => t.(lastTrigger := id)
    case WaitTracked(_, _) => t
    case Kernel(_) => t
  }

  function LanePost(l: Lane): (m: Lane)
    requires l.posted != []
  {
    l.(posted := l.posted[1..], nic := l.nic + [l.posted[0]])
  }

  function LaneComplete(l: Lane): (m: Lane)
    requires l.nic != []
  {
    l.(nic := l.nic[1..], cq := l.cq + [l.nic[0]])
  }

  function LanePoll(l: Lane): (m: Lane)
    requires l.cq != []
  {
    var id := l.cq[0];
    l.(cq := l.cq[1..], polled := l.polled + [id],
       lastTracked := if id in l.triggered then id else l.lastTracked)
  }

  function PollStep(s: State, f: Flow): (t: State)
    requires LaneOf(s, f).cq != []
  {
    var l := LaneOf(s, f);
    var bad := l.cq[0] in l.triggered && !(l.lastTracked < l.cq[0]);
    WithLane(s, f, LanePoll(l)).(fault := s.fault || bad)
  }

  function Apply(s: State, e: Step): (t: State)
    requires Enabled(s, e)
  {
    match e
    case IsendOnStream => Accept(Fresh(s), s.lastReqId + 1)
    case SendOnStream => TrackWait(Accept(Fresh(s), s.lastReqId + 1), TX, s.lastReqId + 1)
    case SendPrepare => Fresh(s).(prepared := s.prepared + {s.lastReqId + 1})
    case IsendPost(id) => IsendPostCall(s, id)
    case SendPost(id) => SendPostCall(s, id)
    case Irecv => Fresh(s).(rx := s.rx.(nic := s.rx.nic + [s.lastReqId + 1]))
    case IsendNow => Fresh(s).(tx := s.tx.(nic := s.tx.nic + [s.lastReqId + 1]))
    case PutNowait => Fresh(s)
    case WaitOnStream(f, id) => WaitCall(s, f, id)
    case Launch(tag) => Queue(s, Kernel(tag))
    case StreamStep => StreamExec(s)
    case NicPost(ok) => if ok then s.(tx := LanePost(s.tx)) else s
    case NicComplete(f) => WithLane(s, f, LaneComplete(LaneOf(s, f)))
    case Poll(f) => PollStep(s, f)
  }

  // ---- runs -----------------------------------------------------------------------------------

  /**
    What keeps the ids of the TX flow sorted: an immediate mp_isend is only made while no deferred
    send is still on the posted list, and a prepared send is not posted once a later id was accepted.
    Safety asks for a little less; EventSyncOrder has the exact guard.
   */
  predicate KeepsOrder(s: State, e: Step) {
    match e
    case IsendNow => s.tx.posted == []
    case IsendPost(id) => id > s.lastPostedTrigger ==> Above(id, Line(s.tx))
    case SendPost(id) => id > s.lastPostedTrigger ==> Above(id, Line(s.tx))
    case _ => true
  }

  /** Keeping the order, and waiting on the stream only for requests that were already accepted. */
  predicate Permitted(s: State, e: Step) {
    && KeepsOrder(s, e)
    && (e.WaitOnStream? ==> e.id in Line(LaneOf(s, e.flow)))
  }

  predicate Above(id: nat, q: seq<nat>) { forall x :: x in q ==> x < id }

  ghost predicate Trace(states: seq<State>, steps: seq<Step>) {
    && |states| == |steps| + 1
    && forall i {:trigger steps[i]} :: 0 <= i < |steps| ==>
         Enabled(states[i], steps[i]) && states[i + 1] == Apply(states[i], steps[i])
  }

  /** A run whose host calls all keep to the caller's side of the contract. */
  ghost predicate Disciplined(states: seq<State>, steps: seq<Step>) {
    && Trace(states, steps)
    && forall i {:trigger steps[i]} :: 0 <= i < |steps| ==> Permitted(states[i], steps[i])
  }

  ghost predicate Run(states: seq<State>, steps: seq<Step>) {
    Disciplined(states, steps) && states[0] == INIT
  }
}
