# Verification of the event-sync protocol and the COMM library

The library lets a GPU stream trigger and wait for InfiniBand transfers. In event-sync mode it does so
with 32-bit counters that the stream, the host's progress engine and the NIC read and write; on top of
it the COMM library exchanges data between ranks, and the benchmarks and examples keep rings of
requests in flight. This project models those protocols in Dafny and proves what they promise.

## Layout

- `EventSync`, `EventSyncInvariant`, `EventSyncTheorems`: one client as a transition system of host
  calls, stream steps, NIC steps and progress steps; its invariant; safety, exact wait elision, no
  deadlock and order over all runs. `EventSyncElision`: the machine that queues every wait, in lockstep.
- `Requests`, `RequestPool`, `PostedList`: the request records on the heap, the free list and the
  posted list threaded through the same `next`/`prev` fields.
- `EventSyncOrder`, `EventSyncExact`: what calls have to keep to for safety, and that it is exact.
- `Ledger`, `Client`: the client as a class. Every call is proved to be one step of the transition
  system, through an account that says which live id has which record, in which queue, and what the
  record must say.
- `ProgressSpec`, `ProgressEffect`, `Progress`: the progress engine over the real queues, and exactly what
  a call of it comes to. `RoundSpec`, `HostWait`: `mp_wait_all` and `mp_progress_all`, as rounds of
  progress on both flows, and when they end. `Posting`: the calls that post at once, with their retries. `TrackedRequests`: the
  table of requests that `comm_flush` waits for.
- `BatchSpec`, `Batch`: the batched stream calls against single calls.
- `Ownership`, `SessionSpec`, `Session`: who owns a request record, in one state and under any sequence
  of calls; such a sequence as a run of the machine.
- `CommExchange`, `CommExchangeInvariant`, `CommExchangeTheorems`, `SyncExchange`: `sync_exchange` and
  `async_exchange` between any number of ranks. The asynchronous results are for the default mode,
  in which the stream itself triggers a send. With event sync, a send on the stream also needs the
  progress engine, which does not run while the host is in cudaDeviceSynchronize
  (comm_library/examples/comm_pingpong.cpp:223), so there the program can hang.
- `ReadyCounters`: the ready counters with their 32-bit wrap.
- `Ring`, `TwoRings`, `BatchPipeline`: the request rings of the benchmarks. `PingPong`: the turns of the
  two ranks, put together.
- `PutHandshake`, `PutHandshakeInvariant`, `PutHandshakeTheorems`: the two-process put / signal / ack handshake.
- `DescRing`, `DescQueue`: the descriptor ring of the COMM library and the descriptor queue.

Predicates of the form `forall k {:trigger Marked(k)} :: Marked(k) ==> ...` (`Client.Ready`,
`Client.Batching`, `Session.Tidy`, the stretches of runs in `ProgressSpec`, and others) say what follows
the arrow, no more and no less. They keep it folded up while it is handed from one callee to the next;
a lemma beside each, most of them called `Look`, unfolds it.

## Environment assumptions

- Transport is reliable-connected (src/mp.c:1063): messages of one queue pair arrive in order and
  their completions appear in order (section 9.5, Transaction Ordering, of the InfiniBand
  Architecture Specification Volume 1). A send without a posted receive waits.
- A client has one CUDA stream, whose commands execute in order. The library is built with the
  descriptor API, so a batched call reaches the stream in one piece.
- `gds_*` and `ibv_*` calls append to the stream FIFO, the NIC FIFO or the CQ FIFO and succeed, except
  where a result is a parameter: `gds_post_send` in the progress loop and, with `gds_post_recv`, in the
  calls that post at once; `gds_post_wait_cq`, `ibv_poll_cq` and the GPU error check in `mp_wait_all`.
- Host calls are atomic with respect to the stream: of the shared words the host only reads
  last_trigger_id and only writes last_tracked_id.
- Runs keep to two rules of the caller. An immediate send is not made while a deferred one is still
  listed, and a prepared send is not posted after a later id was accepted (`EventSync.KeepsOrder`);
  `EventSyncTheorems.OrderIff` says that this is what keeps the ids in increasing order. For safety a
  weaker guard is enough and exact, `EventSyncOrder.InOrder` by `EventSyncExact.CallSafeIff`: a late
  post is harmless when every later accepted id was polled and never waited for. And a stream wait
  names an accepted request (`EventSync.Permitted`), which is exact by the same theorem.
- Runs contain no broken batch: what one leaves behind is in `BatchSpec.BrokenBatchStrands` and
  `BatchSpec.BrokenBatchDropsWaits`.
- Assertions are compiled in, as in the default build (Makefile.am:41 sets no NDEBUG).

Where the code does not do what its interface suggests, that is proved. With the exact condition: an
immediate send overtaking a deferred one and a late post, a batched post whose ids are not rising,
unsignalled puts through the descriptor queue, and the wrap of the ready counters. As a case of the
contract: a flush after `comm_wait`, a request listed twice in `mp_wait_all`, a post refused for good,
whose record is never seen again, and `sr_exchange` on no batch at all.

## Model

| member | source | states |
|---|---|---|
| EventSyncTheorems.WaitSafety | src/mp_peersync.c:1108-1145 | In every run, once the stream is past everything queued when a call asked to wait for a request, that request's completion has been polled, whether the wait was queued or dropped for one already there |
| EventSyncTheorems.ElisionExact | src/mp_peersync.c:1116-1118 | In every state of every run the queued waits hold a stream command back exactly when a policy that waits on every request named so far would |
| EventSyncElision.ElidingFollows | src/mp_peersync.c:1116-1118 | A second machine queues every wait. Whatever schedule it runs on, the eliding machine runs on the same one without the steps that run an idle wait, and both end with the same queues, records of completions and commands run, idle waits apart |
| EventSyncElision.SimpleFollows | src/mp_peersync.c:1116-1118 | And whatever schedule the eliding machine runs on, the one that queues every wait runs on it too, with idle waits in between that never block |
| EventSyncElision.SameRan | src/mp_peersync.c:1116-1118 | What the two streams have run is the same but for idle waits |
| EventSyncTheorems.WaitHasCaller | src/mp_peersync.c:1187-1219 | Every wait on the stream was put there by a call that asked to wait for that very request |
| EventSyncTheorems.ElidedWaitSoundIff | src/mp_peersync.c:1116-1118 | A dropped wait is honoured in every continuation if and only if its request had been accepted for posting |
| EventSyncTheorems.NeverEarly | src/mp.c:330-369 | Ids reach the NIC in strictly increasing order, hence once, and a deferred send only after the stream ran its trigger write, refused and repeated hand-overs included |
| EventSyncTheorems.NeverFaults | src/mp.c:512-516 | The assertion that last_tracked_id is below the id being reported never fails in any run |
| EventSyncTheorems.CounterChain | src/mp.c:501-515 | With deferred sends only, last_tracked <= last_posted_tracked <= last_posted_trigger <= last_req_id and last_tracked <= last_trigger <= last_posted_trigger in every state |
| EventSyncTheorems.NoTxDeadlock | src/mp.c:319-374 | Whenever the stream of a run is blocked on a TX wait, a hand-over, a completion or a poll on that flow is possible |
| EventSyncTheorems.EngineDecreases | src/mp.c:441-528 | Every step of the stream, the NIC and the progress engine lowers a measure of queued commands, posted, in-flight and completed requests |
| EventSyncTheorems.QuietIsDrained | src/mp.c:441-528 | When the engine can do nothing more, the whole stream has executed and all queues are empty |
| EventSyncTheorems.Drain | src/mp.c:441-528 | From every reachable state the engine steps alone reach that rest, within the measure |
| EventSyncTheorems.DrainBound | src/mp.c:441-528 | No schedule of engine steps is longer than the measure |
| EventSyncTheorems.NothingLost | src/mp_peersync.c:364-423 | A request a call of a run accepted is in one of the four queues of its flow ever after, and polled as soon as the engine can do nothing more |
| EventSyncTheorems.OrderIff | src/mp.c:1558-1628 | The ids of the TX flow stay in increasing order, which is what NeverEarly is about, if and only if the call is not an immediate send overtaking a listed one, nor a late post of an id below one already accepted; what safety asks for is CallSafeIff |
| EventSyncTheorems.OvertakingPassesWait | src/mp.c:1558-1628 | A run in which an immediate send overtakes a listed one: the stream passes the wait on a request that has not completed |
| EventSyncTheorems.OvertakingFaults | src/mp.c:512-516 | The same run continued: the assertion on last_tracked_id fails |
| EventSyncExact.CallSafeIff | src/mp_peersync.c:818-867 | In every continuation no assertion fails and no wait, queued or dropped, is passed before its completion was polled, if and only if the call is in order: an immediate send finds nothing posted; a post is refused, or every accepted id above it was polled unflagged; a stream wait names an accepted request |
| EventSyncExact.AssertionHoldsIff | src/mp.c:512-516 | The assertion on last_tracked_id holds in every continuation of an immediate send if and only if nothing was on the posted list |
| EventSyncOrder.TolerantRunSafety | src/mp_peersync.c:1108-1145 | In every run whose calls are in order in that sense, sorted or not, no assertion fails and no wait is passed before its completion was polled |
| EventSyncOrder.StepLoose | src/mp_peersync.c:1116-1118 | A call in order leaves a state that satisfies the invariant once some polled, unflagged ids are left out, and takes nothing back |
| EventSyncOrder.OrderedIsTolerant | src/mp_peersync.c:831-867 | Every run that keeps the ids sorted is in order in that sense |
| EventSyncOrder.LateButSafe | src/mp_peersync.c:831-867 | A run in which a late post leaves the ids unsorted and is in order all the same |
| EventSyncInvariant.StepKeeps | src/mp_peersync.c:78-95 | Every permitted step of the host, the stream, the NIC and the progress engine keeps the invariant on lanes, triggers, waits and counters |
| EventSyncInvariant.RunInv | src/mp_internal.h:112-126 | Every state of every run satisfies that invariant |
| EventSyncInvariant.LanePollOk | src/mp.c:512-519 | Polling keeps a flow sorted and last_tracked_id the largest flagged id polled |
| EventSyncInvariant.PostedBelow | src/mp_peersync.c:831-836 | An id on the posted list is not above last_posted_trigger_id, so posting it again is refused |
| Requests.ChainTail | src/mp.c:1752-1753 | Unlinking the head of a linked sequence leaves the rest linked |
| Requests.ChainCons | src/mp.c:1788-1793 | Linking a record in front of a linked sequence gives the longer sequence |
| RequestPool.NewRegion | src/mp.c:1735-1740 | The linking loop chains the 512 records of a fresh region in order |
| RequestPool.Pool.AllocateRequests | src/mp.c:1708-1741 | An empty free list becomes the chain of one more region; live records are untouched |
| RequestPool.Pool.GetRequest | src/mp.c:1743-1759 | The head of the free list, or of a new region when it is empty, becomes live; free plus live stays 512 times the regions |
| RequestPool.Pool.Release | src/mp.c:1786-1794 | A live record returns to the head of the free list, cleared |
| PostedList.List.Track | src/mp_peersync.c:78-95 | Appends the request at the tail; the doubly linked list stays the sequence with it added |
| PostedList.List.Delink | src/mp.c:348-367 | Removes a request anywhere in the list and clears its links; the list stays the sequence without it |
| PostedList.Unlinked | src/mp.c:348-364 | When only the neighbours of a request bypass it, what is linked is the sequence without it |
| Ownership.OnePlaceEach | src/mp.c:1708-1794 | In a valid client no record is in two places of the posted list, the NIC queues and the completion queues, or in one of them and on the free list |
| Session.Drive | src/mp.c:1708-1794 | Any sequence of operations on a fresh client and pool, engine activity included, up to the first the program may not ask for: each took the machine from one recorded state to the next as SessionSpec.Did says; a request some operation had the stream wait for is COMPLETE once the stream is past what was queued by then; no record is in two places; the live records are exactly those of the requests the program holds and of refused posts, and with the free list they are 512 times the regions |
| Session.Perform | src/mp_peersync.c:364-423 | Each operation is the machine's step or stretch for that very operation, and the accounts of records and handles stay true |
| SessionSpec.DidBy | src/mp_peersync.c:364-423 | Each operation is a permitted stretch of a run whose host calls are its own and no others |
| SessionSpec.HistoryRun | src/mp.c:441-528 | Behind the recorded states of a sequence of operations there is one run that goes through them all, with the host calls of each operation between its two states and no others |
| SessionSpec.PassedIsPolled | src/mp_peersync.c:1108-1145 | Whatever operation asked the stream to wait for a request, single or batched, direct or deferred: once the stream is past all that was queued by then, the completion of that request has been polled |
| Session.EachOnce | src/mp.c:1761-1784 | Between calls each request held has a record of its own, and every queued record is one of them, in one place and not free |
| Session.WaitHost | src/mp.c:539-641 | mp_wait_all on different requests keeps all that: the checks and the rounds decide as in HostWait.WaitAll; on success exactly these requests are no longer held, otherwise all still are |
| Client.Draw | src/mp.c:1767-1784 | A record from the pool, its fields set, no record already live changed |
| Client.Client.NewStreamRequest | src/mp.c:1761-1784 | The record carries the next id of the client's counter, which nothing in the client mentions yet |
| Client.Client.SendPrepareCall | src/mp_peersync.c:583-652 | mp_send_prepare is the machine's prepare step |
| Posting.PostRetrying | src/mp.c:1523-1556 | The post is tried until it is answered, a progress call fails or 101 attempts were made; each attempt that met a full queue is followed by one progress call on the flow of the post, with its exact effect; the request stays in no queue |
| Posting.PostAtOnce | src/mp.c:1558-1647 | mp_irecv, mp_isend and an unsignalled mp_iput: after exactly the progress calls of the retries, on RX for a receive and on TX otherwise, the machine's step that queues the request, or puts it out of reach of any completion; a refused request is drawn, in no queue and not the caller's |
| Client.Client.TrackPosted | src/mp_peersync.c:837-867 | Accepting a prepared send raises the mark and appends it to the posted list, whatever the stream has |
| Client.Client.TrackWaited | src/mp_peersync.c:1116-1145 | A wait raises the high-water mark and the flag, or is dropped, exactly as the machine does |
| Client.Client.IsendOnStreamCall | src/mp_peersync.c:364-423 | mp_isend_on_stream in event mode is the machine's deferred send |
| Client.Client.SendOnStreamCall | src/mp_peersync.c:232-311 | mp_send_on_stream in event mode is the deferred send with its wait |
| Client.Client.IsendPostOnStream | src/mp_peersync.c:818-867 | Refused exactly when the id is not above last_posted_trigger_id; otherwise the machine's post step |
| Client.Client.SendPostOnStream | src/mp_peersync.c:721-798 | The same with the wait for the completion |
| Client.Client.WaitOnStreamCall | src/mp_peersync.c:1099-1145 | Nothing for a complete request, otherwise the machine's wait step on the request's flow, for any request drawn, unsignalled puts included |
| Ledger.DrawAccount | src/mp.c:1776-1780 | Drawing an id disturbs no queue and no record |
| Ledger.DrawSpare | src/mp.c:1776-1780 | Nothing in the client mentions the id drawn |
| Ledger.AcceptAccount | src/mp_peersync.c:837-867 | A prepared send moves to the posted list and the records still amount to the machine's state |
| Ledger.PostAccount | src/mp.c:332-369 | Handing over the head moves it to the NIC queue as PENDING and the records still amount to the machine's state |
| Ledger.PollAccount | src/mp.c:494-519 | Polling moves the head of a CQ to COMPLETE and the records still amount to the machine's state |
| Ledger.ReleaseAccount | src/mp.c:625-637 | A complete request leaves the account; no queue held it |
| Ledger.OthersDiffer | src/mp.c:1776-1780 | Different ids have different records |
| Ledger.PlaceSays | src/mp_internal.h:46-54 | Where a request is decides which calls accept it, and it is COMPLETE exactly when its completion was polled |
| ProgressSpec.PostPassExact | src/mp.c:332-369 | A pass hands over exactly the entries before the first one not triggered or refused, in order |
| ProgressSpec.PassRemovesTriggered | src/mp.c:332-369 | With no refusal it removes exactly the entries with id at most last_trigger_id, and keeps the order of the flow |
| ProgressSpec.PollManyExact | src/mp.c:478-519 | Polling n completions moves them in order and sets last_tracked_id to the last flagged one |
| ProgressSpec.ReportsRise | src/mp.c:512-516 | The id about to be reported is above last_tracked_id |
| ProgressSpec.ProgressLeads | src/mp.c:441-528 | A progress call is a stretch of a run made of engine steps; which ones is in ProgressEffect.ProgressExact |
| ProgressEffect.ProgressExact | src/mp.c:441-528 | The machine's progress pass has exactly this effect on posted list, NIC queue, CQ, polled completions and last_tracked_id |
| ProgressEffect.ProgressedOnce | src/mp.c:441-528 | That effect determines the state after the call: nothing about it is left open |
| ProgressSpec.LeadsKeeps | src/mp.c:441-528 | Such a stretch keeps the invariant and takes back nothing accepted, issued or completed |
| Progress.HandOver | src/mp.c:332-369 | The head is delinked, PENDING and last in the NIC queue: the machine's hand-over |
| Progress.ProgressPostedList | src/mp.c:319-374 | The loop equals the machine's pass; it fails exactly when a triggered head is refused, and leaves the rest listed |
| Progress.ProgressRequest | src/mp.c:376-397 | Only a pending request becomes COMPLETE |
| Progress.PollOne | src/mp.c:494-519 | One completion: the status check and the assertion hold, last_tracked_id and last_done_id are set |
| Progress.PollCq | src/mp.c:478-524 | The completions of one poll are processed in order |
| Progress.ProgressSingleFlow | src/mp.c:441-528 | The whole call: on TX all posted requests before the first that is untriggered or refused are handed over, behind what the NIC had; on either flow exactly the ne completions polled move, in order, and the last flagged of them is reported; everything else stays; a negative poll polls nothing and is a failure |
| HostWait.CompleteIsDone | src/mp.c:588-592 | A live request is COMPLETE exactly when its completion was polled |
| HostWait.StartWaits | src/mp.c:547-584 | The first loop: the first request that is released, cannot be waited for, or whose CQ wait is refused decides between the assertion on its type, EINVAL and the error of the post; on success exactly the requests that were PENDING_NOWAIT are PENDING now |
| HostWait.VerdictIff | src/mp_internal.h:294-299 | The checks pass exactly when every request can be waited for and the CQ wait of each that needs one is accepted; otherwise the first request that does not pass decides, a released record by the assertion |
| HostWait.Turn | src/mp.c:588-600 | Whatever the stream and the NIC do first, one progress call then has exactly its effect on the flow |
| HostWait.BothFlows | src/mp.c:588-618 | One round: the TX flow makes progress, then the RX flow unless the first poll failed; it fails exactly on a failed poll or a GPU error |
| RoundSpec.RoundPolls | src/mp.c:588-600 | A round polls, on TX and on RX alike, the oldest of the completions that are there by then, as many as ibv_poll_cq returns and at most 20, and none when that fails |
| RoundSpec.RoundStops | src/mp.c:588-600 | A failed poll of TX ends the round: RX is not polled |
| RoundSpec.RipeEnds | src/mp.c:586-622 | When every awaited completion was polled or is on a CQ, no round fails, each polls both flows for at least one completion, and there are as many rounds as either CQ has entries, the wait succeeds |
| RoundSpec.HeadIsSeen | src/mp.c:664-686 | A request whose completion was polled or heads its CQ is counted complete after its turn, if the round polls its flow for anything |
| HostWait.AwaitAll | src/mp.c:586-622 | The polling loop, round by round: it goes on until a round fails or every completion is polled, no further, and then answers failure or success; when the completions are on the CQs and the rounds suffice it succeeds |
| HostWait.FirstsIff | src/mp.c:625-637 | The first occurrences of a list are the list exactly when nothing is repeated |
| HostWait.ReleaseDone | src/mp.c:630-631 | A complete request goes back to the pool; the client and the posted list are otherwise unchanged |
| HostWait.ReleaseAll | src/mp.c:625-637 | Each listed record returns to the pool once, in order; the result is success exactly when none is listed twice |
| HostWait.AwaitCompletion | src/mp.c:539-622 | The first two loops: if the checks fail nothing else happens and their outcome is the answer, otherwise the polling loop decides; nothing is released |
| HostWait.WaitAll | src/mp.c:539-641 | The whole call: the checks and then the polling loop decide as above, and completions on the CQs with enough rounds are enough; once all completed each record goes back to the pool exactly once and no other, exactly the requests listed are no longer live, and a repeated request is an error found after releasing; every other failure releases nothing |
| HostWait.ProgressAll | src/mp.c:643-686 | Each request not complete at its turn gets one round on both flows, any other none; the call fails exactly when such a round has a failed poll, and otherwise returns how many requests were complete after their turn; nothing is released |
| TrackedRequests.Table.Track | comm_library/comm.cpp:312-317 | The request joins the table |
| TrackedRequests.Table.Progress | comm_library/comm.cpp:550-559 | The same for everything tracked; the table is unchanged and nothing is released |
| TrackedRequests.Table.Flush | comm_library/comm.cpp:561-573 | mp_wait_all on everything tracked: the checks, then rounds of progress until all completed or a round failed, and completions on the CQs with enough rounds are enough. If it came to its releasing loop everything tracked completed and is back in the pool once, and it succeeds exactly when nothing was tracked twice; otherwise nothing is released. A record released before keeps it from getting there and, without unsignalled puts and with every CQ wait accepted, stops the program at the assertion on its type |
| TrackedRequests.Table.WaitOne | comm_library/comm.cpp:445-453 | mp_wait_all on the one request, with its checks and rounds; on success the request completed and was released, and is still in the table |
| BatchSpec.RisingAccepted | src/mp_peersync.c:1018-1055 | A rising batch joins the posted list in full and its last id is the new mark |
| BatchSpec.BatchIff | src/mp_peersync.c:1023-1061 | A batch does what single calls do if and only if the order holds, or no id of it is above the mark |
| BatchSpec.BrokenBatchStrands | src/mp_peersync.c:1023-1061 | When the order breaks, every earlier request is listed with no trigger write of its id or above on the stream |
| BatchSpec.StrandedStays | src/mp_peersync.c:1023-1061 | Such a request stays on the posted list in every run until another deferred send is accepted |
| BatchSpec.BrokenBatchDropsWaits | src/mp_peersync.c:900-947 | With waits the broken batch also raises the high-water mark: a later stream wait on one of its requests is dropped, and the stream can run past everything queued while the request is not even with the NIC |
| BatchSpec.PostEachGoes | src/mp_peersync.c:1018-1055 | A batch of prepared sends rising above all accepted ids is a permitted stretch of a run, and so keeps the invariant |
| BatchSpec.WaitEachGoes | src/mp_peersync.c:1187-1219 | So are the waits of a batch on accepted requests |
| Batch.ReadyAfterPosts | src/mp_peersync.c:1056-1061 | After such a batch the client is ready for any other call |
| Batch.IsendPostAll | src/mp_peersync.c:1005-1063 | On prepared sends and requests at or below the mark, wherever these are by now: succeeds exactly on rising ids above the mark and then equals the single calls; otherwise the requests before the break are tracked and the stream is unchanged |
| Batch.TrackHanded | src/mp_peersync.c:1023-1055 | An immediate send above the mark passes the batched calls' test, which looks at ids only: its record joins the posted list although it was handed over and is not PREPARED |
| Batch.SendPostAll | src/mp_peersync.c:882-959 | The same with a wait after each trigger write |
| Batch.WaitAllOnStream | src/mp_peersync.c:1177-1227 | On requests that are not complete, as the call asserts, unsignalled puts included: the waits, flags and marks of the single calls |
| Batch.ReadyAfterWaits | src/mp_peersync.c:1187-1219 | And after the waits of a batch on accepted requests |
| CommExchangeInvariant.StepKeeps | comm_library/examples/comm_pingpong.cpp:66-129 | Every step of every rank and channel keeps the counters of each pair at what the program counters say, and the channels holding exactly what was sent and has not landed |
| CommExchangeInvariant.TransitAppends | comm_library/comm.cpp:321-337 | A put or a send joins the channel in sequence |
| SyncExchange.SyncExchange | comm_library/examples/comm_pingpong.cpp:101-129 | The two loops make a receive and a ready, then a wait and a send, for every other rank in order, then the flush; both counters end at the number of peers |
| SyncExchange.CallsAre | comm_library/examples/comm_pingpong.cpp:101-129 | Call by call: for each of the others in order its receive, then its ready; after all of these its wait, then its send; the flush last |
| SyncExchange.ProgramIsExchange | comm_library/examples/comm_pingpong.cpp:101-129 | The program counter of a rank makes these very calls in each iteration |
| SyncExchange.StepMakesCall | comm_library/examples/comm_pingpong.cpp:101-129 | A step of a rank makes the call at its program counter and touches no other peer |
| CommExchangeTheorems.Credit | comm_library/comm.cpp:321-388 | sent <= waited <= ready_table <= readies sent <= receives posted, for each ordered pair, and nothing on a channel is lost |
| CommExchangeTheorems.CreditSafety | comm_library/examples/comm_pingpong.cpp:66-129 | In every interleaving of any number of ranks, synchronous or on streams, the sends from a to b never exceed the receives b posted for a, so data never lacks a receive |
| CommExchangeTheorems.FlushedData | comm_library/examples/comm_pingpong.cpp:66-129 | When the flush of iteration i is passed, each peer's buffer holds that peer's data of iteration i, and each peer has ours, also with receives of later iterations posted into the same buffers ahead |
| CommExchangeTheorems.NoDeadlock | comm_library/examples/comm_pingpong.cpp:66-129 | While some rank is unfinished, some rank, delivery or completion can go on |
| CommExchangeTheorems.WorkDecreases | comm_library/examples/comm_pingpong.cpp:66-129 | Every step leaves less work |
| CommExchangeTheorems.RunBound | comm_library/examples/comm_pingpong.cpp:213-225 | No run is longer than the work it began with, for any number of ranks and iterations |
| CommExchangeTheorems.CompleteExchange | comm_library/examples/comm_pingpong.cpp:213-225 | When nothing more can happen every rank finished and every ordered pair exchanged once per iteration |
| ReadyCounters.CountersTell | comm_library/comm.cpp:238-245 | The 32-bit values tell how many readies were given, landed and taken, modulo 2^32 |
| ReadyCounters.GrantedIff | comm_library/comm.cpp:377 | Below the wrap the comparison passes exactly when a ready that was not taken has landed |
| ReadyCounters.NeverAhead | comm_library/comm.cpp:369-412 | With fewer than 2^32 takes, however many readies, the k-th take completes only after the k-th ready was given |
| ReadyCounters.NoneLost | comm_library/comm.cpp:377 | With nothing in flight a take is granted exactly when a given ready is left, however many puts landed between two looks |
| ReadyCounters.WrapGrantsTooMuch | comm_library/comm.cpp:386 | After 2^32 - 1 readies were taken one more take is granted with none left |
| ReadyCounters.WrapGrantsForever | comm_library/comm.cpp:386 | And so are any number of further takes |
| ReadyCounters.BoundIsExact | comm_library/comm.cpp:369-388 | The k-th take completes only after the k-th ready was given, in every run, if and only if k < 2^32 |
| ReadyCounters.Rank.SendReady | comm_library/comm.cpp:339-355 | The put carries the current value, which then goes up by one in 32 bits; other peers are untouched |
| ReadyCounters.Rank.TestReady | comm_library/comm.cpp:390-412 | Takes a ready exactly when the table grants one |
| ReadyCounters.Rank.WaitReady | comm_library/comm.cpp:369-388 | Stops at the first landed put that grants, takes one ready, and leaves the rest in flight |
| Ring.FreeAt | benchmarks/mp_pingpong_kernel_stream.cu:138-143 | With room in the ring the next slot is free |
| Ring.Slots.Post | benchmarks/mp_pingpong_kernel_stream.cu:214-220 | A request is posted only into a slot whose previous occupant was waited for |
| Ring.Slots.Wait | benchmarks/mp_pingpong_kernel_stream.cu:249-255 | The slot at the completion index holds the oldest request |
| PingPong.TurnsAlternate | benchmarks/mp_pingpong_kernel_stream.cu:156-205 | In n turns, rank 0 has received message k before it sends message k, the other rank sent it before it receives |
| PingPong.NeverStuck | benchmarks/mp_pingpong_kernel_stream.cu:156-205 | With one rank answering and the other sending first, wherever the two are before the end one of them can go on, a receive ending only after the peer's send |
| PingPong.Lockstep | benchmarks/mp_pingpong_kernel_stream.cu:156-205 | There is one schedule only: neither rank is ever more than one event ahead, so at most one message is under way |
| PingPong.RunsToTheEnd | benchmarks/mp_pingpong_all.cu:386-413 | However far the two ranks have come, their logs can be interleaved to the end |
| PingPong.BothAnsweringHang | benchmarks/mp_pingpong_all.cu:386-413 | Two ranks that both receive first hang at once |
| TwoRings.Exchange.ReceiveOne | benchmarks/mp_pingpong_kernel_stream.cu:160-166 | The slot of iteration j holds receive j, for the stream wait and the host wait alike |
| TwoRings.Exchange.ReceiveAndSend | benchmarks/mp_pingpong_kernel_stream.cu:156-205 | Rank 0 receives then sends, the other rank the reverse; each uses its own slot of the iteration |
| TwoRings.Exchange.PostAhead | benchmarks/mp_pingpong_kernel_stream.cu:214-220 | The receive of a later iteration is posted while any is left |
| TwoRings.Exchange.Synchronize | benchmarks/mp_pingpong_kernel_stream.cu:236-258 | A full send ring waits for the oldest batch, and then has room |
| TwoRings.SrExchange | benchmarks/mp_pingpong_kernel_stream.cu:119-277 | For all steps, batches and iterations and any preposting depth up to the iterations: no slot is reused before it was waited on, every send and receive is waited for once, in order, both rings fill up exactly, and in turn k rank 0 uses receive k and then makes send k, the other rank the reverse |
| TwoRings.Benchmark | benchmarks/mp_pingpong_kernel_stream.cu:427-429 | With the depth the benchmark chooses, the smaller of a batch and the iterations |
| BatchPipeline.BatchSlot | benchmarks/mp_pingpong_kernel_stream_latency.cu:165-171 | Slot by slot, the ring of batches is a ring of requests numbered through |
| BatchPipeline.PostBatch | benchmarks/mp_pingpong_kernel_stream_latency.cu:173-181 | A batch is posted into free slots |
| BatchPipeline.WaitBatch | benchmarks/mp_pingpong_kernel_stream_latency.cu:183-201 | Every request of the oldest batch is waited for, in order |
| BatchPipeline.UseBatch | benchmarks/mp_pingpong_all.cu:299-308 | The slots a stream wait refers to hold the requests of that batch |
| BatchPipeline.Pipeline.PrepareSends | benchmarks/mp_pingpong_all.cu:263-274 | The sends of a batch are prepared into free slots |
| BatchPipeline.Pipeline.Exchange | benchmarks/mp_pingpong_all.cu:386-413 | Step by step each receive of the batch is used and its send made, rank 0 receiving first and the other rank sending first, and each slot used is that of its request |
| BatchPipeline.Pipeline.PostWork | benchmarks/mp_pingpong_all.cu:343-428 | Work is posted for a batch whose receives are posted and, kernel-initiated, whose sends are prepared; the stream then may wait for these very sends |
| BatchPipeline.FillTurn | benchmarks/mp_pingpong_kernel_stream_latency.cu:288-302 | The filling loop posts one batch of receives ahead of the work |
| BatchPipeline.DrainTurn | benchmarks/mp_pingpong_all.cu:524-558 | Each turn waits for the oldest batch and posts the next in its place |
| BatchPipeline.SrExchange | benchmarks/mp_pingpong_all.cu:469-558 | In all three modes each batch is posted once before its work, prepared before its kernel and waited for once; at most D send and D + 1 receive batches are in the rings, and so many are; in turn k rank 0 uses receive k and then makes send k, the other rank the reverse |
| PutHandshakeInvariant.StepKeeps | examples/mp_putget.c:197-266 | Every step of the two processes, the stream and the NIC keeps the invariant |
| PutHandshakeTheorems.ValidationSeesIteration | examples/mp_putget.c:486-562 | While rank 1 validates iteration i its whole window holds iteration i's value, signalled or not, for every window and iteration count |
| PutHandshakeTheorems.SourceIsStable | examples/mp_putget.c:486-530 | The source of a put is not refilled before the put has read it |
| PutHandshakeTheorems.RanksMeet | examples/mp_putget.c:486-490 | With the barrier neither rank is inside an iteration the other has not reached, and they are at most one apart |
| PutHandshakeTheorems.CompletesInOrder | examples/mp_putget.c:218-240 | The stream goes on to the signal only when signalled puts completed, and stream and host go on to the ack only when the signal completed |
| PutHandshakeTheorems.AcksInOrder | examples/mp_putget.c:208-266 | Iteration i is posted, and begun by the stream, only with the acks of all iterations before it; acks are sent only for iterations checked, at most one at a time |
| PutHandshakeTheorems.LandsInPosted | examples/mp_putget.c:232-266 | A signal or an ack never lands without a posted receive, and an iteration is acknowledged only after its signal came |
| PutHandshakeTheorems.NoDeadlock | examples/mp_putget.c:197-266 | Until both ranks are through, something can happen |
| PutHandshakeTheorems.RunBound | examples/mp_putget.c:197-266 | Every step counts for one, and no run exceeds a bound in window and iterations |
| PutHandshakeTheorems.RunsToTheEnd | examples/mp_putget.c:197-266 | When nothing more can happen both ranks are through |
| DescRing.IndexAfter | comm_library/comm.cpp:685 | The current slot after any calls |
| DescRing.TakenIsStable | comm_library/comm.cpp:676-689 | A batch handed out is untouched for the next 126 takes, whatever is prepared |
| DescRing.FirstZeroed | comm_library/comm.cpp:676-689 | The 127th take is the one that zeroes it |
| DescRing.BatchIsSince | comm_library/comm.cpp:578-594 | A batch is exactly what was prepared since the last take: each sequence starts on a zeroed slot |
| DescRing.SinceIs | comm_library/comm.cpp:578-594 | Whatever was done before a take, the next batch is exactly the descriptors prepared after it, in order |
| DescRing.Ring.PrepareDesc | comm_library/comm.cpp:596-608 | Adds to the current slot and touches no other, allocating the zeroed ring on first use |
| DescRing.Ring.PreparedRequests | comm_library/comm.cpp:676-689 | Hands out the slot that was being prepared, zeroes the next and touches no other |
| DescQueue.CallBothWays | src/desc_queue.cpp:137-208 | A call the queue takes is one the single call takes, and makes the requests differ exactly when it posts an unsignalled put |
| DescQueue.BatchesAsSingles | src/desc_queue.cpp:137-257 | For every program of adds and posts: the single calls can be made one at a time; stream plus queue hold the same commands in the same order, those of DescQueue.StreamCarries; statuses agree outside unsignalled puts; and all statuses agree if and only if no unsignalled put was added |
| DescQueue.StreamCarries | src/desc_queue.cpp:137-257 | Calls made one at a time put on the stream, in their order, one send for each post, one completion wait for each wait on a request, and each value wait or write with its own operands |
| DescQueue.RequestCounts | src/desc_queue.cpp:137-257 | Whatever is added and posted when: stream and queue hold one send of a request per post of it and one completion wait per wait on it |
| DescQueue.WordCounts | src/desc_queue.cpp:210-243 | And one value wait or write per such add, with the same operands |
| DescQueue.OncePerRequest | src/desc_queue.cpp:137-208 | Of two calls on one request in a program, the first posts it and the second waits for it: none is sent or waited for twice |
| DescQueue.WaitsAfterPost | src/desc_queue.cpp:159-183 | A wait on a request that began PREPARED comes after its post |
| DescQueue.IsendPostOnStream | src/mp_peersync.c:868-876 | The single post of a send outside event mode: one send on the stream, and the request is PENDING_NOWAIT |
| DescQueue.IputPostOnStream | src/mp_peersync.c:1492-1515 | The single post of a put: one send on the stream, and an unsignalled one is complete at once |
| DescQueue.WaitOnStream | src/mp_peersync.c:1146-1169 | The single wait outside event mode: one completion wait on the stream and the request is PENDING; EINVAL and nothing queued for a request that cannot be waited for |
| DescQueue.Queue.AddSend | src/desc_queue.cpp:137-157 | The send joins the queue and the request is PENDING_NOWAIT |
| DescQueue.Queue.AddWaitSend | src/desc_queue.cpp:159-183 | The wait for the completion joins the queue and the request is PENDING |
| DescQueue.Queue.AddWaitRecv | src/desc_queue.cpp:185-208 | The same for a receive |
| DescQueue.Queue.AddWaitValue | src/desc_queue.cpp:210-227 | The value wait joins the queue with the caller's pointer, value and condition |
| DescQueue.Queue.AddWriteValue | src/desc_queue.cpp:229-243 | The value write joins the queue with the caller's pointer and value |
| DescQueue.Queue.PostOnStream | src/desc_queue.cpp:245-257 | Everything collected reaches the stream and the queue is empty |

## Left out

- Several clients at once: the client class is one client; the loops over clients in
  `progress_posted_list` and `mp_progress_single_flow` take one turn. A refused post also ends the
  loop over the remaining clients, which is not shown.
- Receives on the posted list: `mp_irecv_on_stream` is disabled, so the RX list is always empty.
- Signalled immediate puts and gets: as far as ids and completions go they are immediate sends.
- Stream steps between two list entries of one hand-over pass, and engine activity while the host is
  inside a call that does not poll.
- EventSyncExact.CallSafeIff: says nothing of a stream wait on a request not accepted yet, when no such
  wait was queued before and the client's 2^32 - 1 ids are used up.
- TrackedRequests.Table.Flush: a record released and handed out again counts as the new request.
- Session.Drive: stops before the first call with which the program would break its side of the contract;
  the program holds no released request, and lists none twice in one `mp_wait_all`. Kernel launches
  between the calls are in the runs of `EventSync` only.
- Batch.IsendPostAll: not for a batch that names an immediate send above the mark. Its record is then
  in two queues (`Batch.TrackHanded`), and the account of the client ends there.
- Batch.SendPostAll: the same.
- HostWait.WaitAll: the polling loop ends after a given finite schedule of turns, reported as
  StillWaiting; the branch for shared-memory transfers is not modelled.
- CommExchangeInvariant.StepKeeps: the ready counters are unbounded there; the wrap is treated in
  ReadyCounters. tot_iters is at most 128 in the program.
- The host of `async_exchange`: its receives may be posted in any order ahead of the stream, which
  includes the order of its loop; its stream commands are taken as queued once their receive is posted.
- PutHandshakeTheorems.ValidationSeesIteration: the value is the iteration itself, not the byte
  (i + 1) % CHAR_MAX written in its place; `size` is the size of one cell and does not appear.
- DescQueue.Queue.AddWaitValue: the assertion on the range of the condition is not modelled; its constants
  belong to libgdsync.
- DescQueue.BatchesAsSingles: the `stream` field of a request, set by the single calls and not by the
  queue, is not modelled.
- The shared-memory path, UD mode, the waited list, devices, registration and window tables,
  environment variables, timing, printing, memory barriers and the freeing of regions.
- mem_region_list keeps only the first region allocated (src/mp.c:1721-1726); the pool counts all.
