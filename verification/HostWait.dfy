/** mp_wait_all: the host waits for a set of requests and returns their records to the pool. */
module HostWait {
  import opened Requests
  import opened EventSync
  import opened EventSyncInvariant
  import opened EventSyncTheorems
  import opened Ledger
  import opened ProgressSpec
  import opened ProgressEffect
  import opened RoundSpec
  import opened Progress
  import opened RequestPool
  import C = Client
  import PostedList

  // ---- handles ---------------------------------------------------------------------------------------

  /** r is the record of a live request of the client. */
  ghost predicate Handle(req: map<nat, MpRequest>, r: MpRequest)
    reads r`id
  {
    r.id in req && req[r.id] == r
  }

  /** The record went back to the pool and was not handed out again. */
  predicate Stale(r: MpRequest)
    reads r`kind
  {
    r.kind.NullReq?
  }

  /** What a caller may hold: the record of a live request, or one that was released. */
  ghost predicate Returned(req: map<nat, MpRequest>, r: MpRequest)
    reads r`id, r`kind
  {
    Stale(r) || Handle(req, r)
  }

  function KeyOf(r: MpRequest): (k: Key)
    reads r`id, r`kind
  {
    Key(FlowOf(r.kind), r.id)
  }

  ghost predicate KeysOf(keys: seq<Key>, reqs: seq<MpRequest>)
    reads (set r | r in reqs)`id, (set r | r in reqs)`kind
  {
    |keys| == |reqs| && forall i {:trigger keys[i]} :: 0 <= i < |reqs| ==> keys[i] == KeyOf(reqs[i])
  }

  /** The record of a live request is COMPLETE exactly when its completion was polled. */
  lemma CompleteIsDone(c: C.Client, r: MpRequest)
    requires c.Valid() && Handle(c.book.req, r)
    ensures r.status == Status.Complete <==> Polled(c.abs, KeyOf(r))
    ensures r.status == Status.Complete ==>
      r.id in c.book.place && c.book.place[r.id] == AtDone(FlowOf(r.kind)) && Unlinked(r)
  {
    PlaceSays(c.abs, c.book, r.id, c.book.place[r.id], r);
    RecordSays(c.abs, c.book, r.id, c.book.place[r.id], r);
  }

  lemma ReadyIsDone(c: C.Client, r: MpRequest)
    requires C.Ready(c) && Handle(c.book.req, r)
    ensures r.status == Status.Complete <==> Polled(c.abs, KeyOf(r))
  {
    C.Look(c);
    CompleteIsDone(c, r);
  }

  ghost predicate AllHandles(req: map<nat, MpRequest>, reqs: seq<MpRequest>)
    reads (set r | r in reqs)`id
  {
    forall i {:trigger Handle(req, reqs[i])} :: 0 <= i < |reqs| ==> Handle(req, reqs[i])
  }

  ghost predicate AllReturned(req: map<nat, MpRequest>, reqs: seq<MpRequest>)
    reads (set r | r in reqs)`id, (set r | r in reqs)`kind
  {
    forall i {:trigger Returned(req, reqs[i])} :: 0 <= i < |reqs| ==> Returned(req, reqs[i])
  }

  /** Every request passes req_can_be_waited. */
  ghost predicate AllWaitable(reqs: seq<MpRequest>)
    reads (set r | r in reqs)`kind, (set r | r in reqs)`nowait
  {
    forall i {:trigger CanBeWaited(reqs[i])} :: 0 <= i < |reqs| ==> CanBeWaited(reqs[i])
  }

  lemma HandlesOf(g: Book, reqs: seq<MpRequest>)
    requires AllReturned(g.req, reqs) && AllWaitable(reqs)
    ensures AllHandles(g.req, reqs) && forall r :: r in reqs ==> r in g.req.Values
  {
    forall i | 0 <= i < |reqs| ensures Handle(g.req, reqs[i]) && reqs[i] in g.req.Values {
      assert Returned(g.req, reqs[i]) && CanBeWaited(reqs[i]);
    }
  }

  // ---- the first loop ----------------------------------------------------------------------------------

  method MarkPending(posted: PostedList.List, r: MpRequest, ghost p: Place, ghost g: Book)
    requires Faithful(g) && posted.Valid() && Entry(g, r.id, p, r) && ViewOf(r) == g.says[r.id] && Unlinked(r)
    requires forall id :: id in g.req && id != r.id ==> g.req[id] != r
    modifies r`status
    ensures posted.Valid() && r.status == Pending
    ensures Faithful(Put(g, r.id, p, r, g.says[r.id].(status := Pending)))
  {
    r.status := Pending;
    forall id | id in g.req && id != r.id ensures Matches(g.req[id], g.says[id], g.place[id]) {
      assert old(Matches(g.req[id], g.says[id], g.place[id]));
    }
    FaithfulPut(g, r.id, p, r);
  }

  /** A PENDING_NOWAIT request that can be waited for becomes PENDING. */
  method PendOne(c: C.Client, r: MpRequest)
    requires c.Valid() && Returned(c.book.req, r) && CanBeWaited(r) && r.status == PendingNowait
    modifies c`tx, c`rx, c`abs, c`book, r`status
    ensures c.Valid() && c.abs == old(c.abs) && r.status == Pending && c.book.req == old(c.book).req
  {
    ghost var s, g, id := c.abs, c.book, r.id;
    ghost var p := g.place[id];
    RecordSays(s, g, id, p, r);
    OthersDiffer(s, g, id, r);
    PendAccount(s, g, c.tx, c.rx, c.posted.items, id, p, r);
    MarkPending(c.posted, r, p, g);
    c.Settle(s, Put(g, id, p, r, g.says[id].(status := Pending)));
    PutSame(g, id, p, r, g.says[id].(status := Pending));
  }

  /** The same, on a client handed from call to call. */
  method PendReady(c: C.Client, r: MpRequest)
    requires C.Ready(c) && Returned(c.book.req, r) && CanBeWaited(r) && r.status == PendingNowait
    modifies c`tx, c`rx, c`abs, c`book, r`status
    ensures C.Ready(c) && c.abs == old(c.abs) && r.status == Pending && c.book.req == old(c.book).req
  {
    C.Look(c);
    PendOne(c, r);
  }

  /** The post of a CQ wait is asked for: the request is PENDING_NOWAIT and was not listed before. */
  predicate NeedsPost(reqs: seq<MpRequest>, i: nat)
    requires i < |reqs|
    reads (set r | r in reqs)`status
  {
    reqs[i].status == PendingNowait && reqs[i] !in reqs[..i]
  }

  /** Request i passes the checks of the first loop; postWait[i] is what gds_post_wait_cq would return. */
  predicate Passes(reqs: seq<MpRequest>, postWait: seq<int>, i: nat)
    requires i < |reqs| == |postWait|
    reads (set r | r in reqs)`kind, (set r | r in reqs)`nowait, (set r | r in reqs)`status
  {
    CanBeWaited(reqs[i]) && (NeedsPost(reqs, i) ==> postWait[i] == 0)
  }

  /** What checking one request comes to. A released record hits the assertion on its type. */
  function CheckOf(r: MpRequest, needsPost: bool, postWait: int): (out: Outcome)
    reads r`kind, r`nowait
  {
    if Stale(r) then Aborted
    else if !CanBeWaited(r) then Finished(C.EINVAL)
    else if needsPost then Finished(postWait)
    else SUCCESS
  }

  /** What checking the first n requests comes to. */
  function Verdict(reqs: seq<MpRequest>, postWait: seq<int>, n: nat): (out: Outcome)
    requires n <= |reqs| == |postWait|
    reads (set r | r in reqs)`kind, (set r | r in reqs)`nowait, (set r | r in reqs)`status
  {
    if n == 0 then SUCCESS
    else if Verdict(reqs, postWait, n - 1) != SUCCESS then Verdict(reqs, postWait, n - 1)
    else CheckOf(reqs[n - 1], NeedsPost(reqs, n - 1), postWait[n - 1])
  }

  /** The checks pass exactly when every request passes; the first that does not decides what they come to. */
  lemma {:induction false} VerdictIff(reqs: seq<MpRequest>, postWait: seq<int>, n: nat)
    requires n <= |reqs| == |postWait|
    ensures Verdict(reqs, postWait, n) == SUCCESS <==> forall i :: 0 <= i < n ==> Passes(reqs, postWait, i)
    ensures Verdict(reqs, postWait, n) != SUCCESS ==>
      exists i :: 0 <= i < n && !Passes(reqs, postWait, i) && (forall j :: 0 <= j < i ==> Passes(reqs, postWait, j))
        && Verdict(reqs, postWait, n) ==
             if Stale(reqs[i]) then Aborted else Finished(if CanBeWaited(reqs[i]) then postWait[i] else C.EINVAL)
  {
    if n > 0 {
      VerdictIff(reqs, postWait, n - 1);
      assert Stale(reqs[n - 1]) ==> !CanBeWaited(reqs[n - 1]);
      if Verdict(reqs, postWait, n - 1) == SUCCESS && Verdict(reqs, postWait, n) != SUCCESS {
        assert !Passes(reqs, postWait, n - 1);
      }
    }
  }

  /** The first request that fails its check decides. */
  lemma {:induction false} VerdictStays(reqs: seq<MpRequest>, postWait: seq<int>, n: nat)
    requires n <= |reqs| == |postWait| && Verdict(reqs, postWait, n) != SUCCESS
    ensures Verdict(reqs, postWait, |reqs|) == Verdict(reqs, postWait, n)
    decreases |reqs| - n
  {
    if n < |reqs| { VerdictStays(reqs, postWait, n + 1); }
  }

  function Pended(status: Status): (st: Status) { if status == PendingNowait then Pending else status }

  /** One request is checked, and a CQ wait posted for it if it is PENDING_NOWAIT. */
  method StartOne(c: C.Client, req: MpRequest, postWait: int) returns (out: Outcome)
    requires C.Ready(c) && Returned(c.book.req, req)
    modifies c`tx, c`rx, c`abs, c`book, c.book.req.Values`status
    ensures C.Ready(c) && c.abs == old(c.abs) && c.book.req == old(c.book).req
    ensures forall r :: r in c.book.req.Values && r != req ==> r.status == old(r.status)
    ensures out == old(CheckOf(req, req.status == PendingNowait, postWait))
    ensures req.status == if out == SUCCESS then Pended(old(req.status)) else old(req.status)
  {
    if req.kind.NullReq? {
      return Aborted;
    }
    if !CanBeWaited(req) {
      return Finished(C.EINVAL);
    }
    if req.status == PendingNowait {
      if postWait != 0 {
        return Finished(postWait);
      }
      PendReady(c, req);
    }
    out := SUCCESS;
  }

  lemma WaitableIfPassed(reqs: seq<MpRequest>, postWait: seq<int>)
    requires |postWait| == |reqs|
    ensures Verdict(reqs, postWait, |reqs|) == SUCCESS ==> AllWaitable(reqs)
  {
    VerdictIff(reqs, postWait, |reqs|);
    forall i | 0 <= i < |reqs| && Verdict(reqs, postWait, |reqs|) == SUCCESS ensures CanBeWaited(reqs[i]) {
      assert Passes(reqs, postWait, i);
    }
  }

  function StatusesOf(reqs: seq<MpRequest>): (q: seq<Status>)
    reads (set r | r in reqs)`status
    ensures |q| == |reqs| && forall i :: 0 <= i < |q| ==> q[i] == reqs[i].status
  {
    if reqs == [] then [] else StatusesOf(reqs[..|reqs| - 1]) + [reqs[|reqs| - 1].status]
  }

  /** The requests had the statuses was; those among the first n that were PENDING_NOWAIT are PENDING. */
  ghost predicate PendedTo(reqs: seq<MpRequest>, was: seq<Status>, n: nat)
    requires n <= |reqs|
    reads (set r | r in reqs)`status
  {
    && |was| == |reqs|
    && forall i {:trigger reqs[i]} :: 0 <= i < |reqs| ==>
         reqs[i].status == if reqs[i] in reqs[..n] then Pended(was[i]) else was[i]
  }

  method StartNext(c: C.Client, reqs: seq<MpRequest>, postWait: int, n: nat, ghost was: seq<Status>) returns (out: Outcome)
    requires C.Ready(c) && AllReturned(c.book.req, reqs) && n < |reqs| && PendedTo(reqs, was, n)
    modifies c`tx, c`rx, c`abs, c`book, c.book.req.Values`status
    ensures C.Ready(c) && c.abs == old(c.abs) && c.book.req == old(c.book).req
    ensures out == CheckOf(reqs[n], was[n] == PendingNowait && reqs[n] !in reqs[..n], postWait)
    ensures out == SUCCESS ==> PendedTo(reqs, was, n + 1)
  {
    assert Returned(c.book.req, reqs[n]) && reqs[..n + 1] == reqs[..n] + [reqs[n]];
    out := StartOne(c, reqs[n], postWait);
    if out == SUCCESS {
      forall i {:trigger reqs[i]} | 0 <= i < |reqs|
        ensures reqs[i].status == if reqs[i] in reqs[..n + 1] then Pended(was[i]) else was[i]
      {
        assert Returned(c.book.req, reqs[i]);
      }
    }
  }

  lemma VerdictFirst(reqs: seq<MpRequest>, postWait: seq<int>)
    requires |postWait| == |reqs|
    ensures forall n {:trigger Verdict(reqs, postWait, n)} :: 0 <= n <= |reqs| && Verdict(reqs, postWait, n) != SUCCESS ==>
              Verdict(reqs, postWait, |reqs|) == Verdict(reqs, postWait, n)
  {
    forall n | 0 <= n <= |reqs| && Verdict(reqs, postWait, n) != SUCCESS
      ensures Verdict(reqs, postWait, |reqs|) == Verdict(reqs, postWait, n)
    {
      VerdictStays(reqs, postWait, n);
    }
  }

  method StartEach(c: C.Client, reqs: seq<MpRequest>, postWait: seq<int>, ghost was: seq<Status>) returns (out: Outcome)
    requires C.Ready(c) && |postWait| == |reqs| && AllReturned(c.book.req, reqs) && PendedTo(reqs, was, 0)
    modifies c`tx, c`rx, c`abs, c`book, c.book.req.Values`status
    ensures C.Ready(c) && c.abs == old(c.abs) && c.book.req == old(c.book).req
    ensures out == old(Verdict(reqs, postWait, |reqs|))
    ensures out == SUCCESS ==> PendedTo(reqs, was, |reqs|)
  {
    VerdictFirst(reqs, postWait);
    var complete := 0;
    while complete < |reqs|
      invariant complete <= |reqs| && old(Verdict(reqs, postWait, complete)) == SUCCESS
      invariant C.Ready(c) && c.abs == old(c.abs) && c.book.req == old(c.book).req
      invariant AllReturned(old(c.book).req, reqs) && PendedTo(reqs, was, complete)
    {
      out := StartNext(c, reqs, postWait[complete], complete, was);
      assert out == old(Verdict(reqs, postWait, complete + 1));
      if out != SUCCESS {
        return;
      }
      complete := complete + 1;
    }
    out := SUCCESS;
  }

  /** Every request is checked, and a CQ wait posted for each that is PENDING_NOWAIT, which is then PENDING. */
  method StartWaits(c: C.Client, reqs: seq<MpRequest>, postWait: seq<int>) returns (out: Outcome)
    requires C.Ready(c) && |postWait| == |reqs|
    requires AllReturned(c.book.req, reqs)
    modifies c`tx, c`rx, c`abs, c`book, c.book.req.Values`status
    ensures C.Ready(c) && c.abs == old(c.abs) && c.book.req == old(c.book).req
    ensures out == old(Verdict(reqs, postWait, |reqs|))
    ensures out == SUCCESS ==> AllWaitable(reqs)
    ensures out == SUCCESS ==>
      forall i {:trigger reqs[i]} :: 0 <= i < |reqs| ==> reqs[i].status == Pended(old(reqs[i].status))
  {
    WaitableIfPassed(reqs, postWait);
    out := StartEach(c, reqs, postWait, StatusesOf(reqs));
  }

  // ---- the second loop ---------------------------------------------------------------------------------

  /** The environment moves, then one progress call on a flow. */
  method Turn(c: C.Client, f: Flow, events: seq<Event>, ok: nat -> bool, polled: int) returns (ret: int)
    requires c.Valid() && Inv(c.abs)
    modifies c`lastDoneId, c`executed, c`lastTrigger, c`tx, c`rx, c`abs, c`book, c.posted
    modifies c.book.req.Values`next, c.book.req.Values`prev, c.book.req.Values`status
    ensures c.Valid() && Inv(c.abs) && Leads(old(c.abs), c.abs) && c.book.req == old(c.book).req
    ensures Turned(old(c.abs), c.abs, f, events, ok, polled)
    ensures ret == if polled < 0 then C.MP_FAILURE else C.MP_SUCCESS
  {
    MeanwhileLeads(c.abs, events);
    Environment(c, events);
    LeadsKeeps(old(c.abs), c.abs);
    var ne := Clip(polled, |c.Regs(f).cq|);
    ghost var s := c.abs;
    ret := ProgressSingleFlow(c, f, ok, ne);
    ProgressLeads(s, f, ok, ne);
    LeadsBoth(old(c.abs), s, c.abs);
    LeadsKeeps(s, c.abs);
  }

  /** One round: both flows make progress, and a round that took too long checks for GPU errors. */
  method BothFlows(c: C.Client, round: Round) returns (ret: int)
    requires C.Ready(c)
    modifies c`lastDoneId, c`executed, c`lastTrigger, c`tx, c`rx, c`abs, c`book, c.posted
    modifies c.book.req.Values`next, c.book.req.Values`prev, c.book.req.Values`status
    ensures C.Ready(c) && Rounded(old(c.abs), c.abs, round) && c.book.req == old(c.book).req
    ensures Leads(old(c.abs), c.abs) && Extends(old(c.abs), c.abs)
    ensures ret == if Fails(round) then C.MP_FAILURE else C.MP_SUCCESS
  {
    C.Look(c);
    ret := Turn(c, TX, round.before, round.ok, round.txPolled);
    LeadsKeeps(old(c.abs), c.abs);
    if ret != C.MP_SUCCESS {
      RoundedHalf(old(c.abs), c.abs, round);
      return;
    }
    ghost var s := c.abs;
    ret := Turn(c, RX, round.between, round.ok, round.rxPolled);
    LeadsBoth(old(c.abs), s, c.abs);
    LeadsKeeps(old(c.abs), c.abs);
    RoundedWhole(old(c.abs), s, c.abs, round);
    if ret != C.MP_SUCCESS {
      return;
    }
    if round.gpuError {
      ret := C.MP_FAILURE;
    }
  }

  lemma WaitedAndStill(c: C.Client, reqs: seq<MpRequest>, keys: seq<Key>, n: nat)
    requires C.Ready(c) && AllHandles(c.book.req, reqs) && KeysOf(keys, reqs) && n < |reqs|
    requires AllPolled(c.abs, keys, n)
    ensures reqs[n].status == Status.Complete ==> AllPolled(c.abs, keys, n + 1)
    ensures reqs[n].status != Status.Complete ==> !AllPolled(c.abs, keys, |keys|)
  {
    assert Handle(c.book.req, reqs[n]) && keys[n] == KeyOf(reqs[n]);
    ReadyIsDone(c, reqs[n]);
    OneMorePolled(c.abs, keys, n);
  }

  /** The host polls until every request is complete, for as many rounds as there are. */
  method AwaitAll(c: C.Client, reqs: seq<MpRequest>, ghost keys: seq<Key>, rounds: seq<Round>)
    returns (out: Outcome, ghost marks: seq<State>)
    requires C.Ready(c)
    requires AllHandles(c.book.req, reqs) && KeysOf(keys, reqs)
    modifies c`lastDoneId, c`executed, c`lastTrigger, c`tx, c`rx, c`abs, c`book, c.posted
    modifies c.book.req.Values`next, c.book.req.Values`prev, c.book.req.Values`status
    ensures C.Ready(c) && Leads(old(c.abs), c.abs) && c.book.req == old(c.book).req
    ensures Awaited(marks, keys, rounds, out) && marks[0] == old(c.abs) && marks[|marks| - 1] == c.abs
    ensures old(Ripe(c.abs, keys) && Enough(c.abs, rounds)) ==> out == SUCCESS
  {
    C.Look(c);
    out, marks := AwaitRounds(c, reqs, keys, rounds);
    RoundsLead(marks, rounds, |marks| - 1);
    if Ripe(marks[0], keys) && Enough(marks[0], rounds) { RipeEnds(marks, keys, rounds, out); }
  }

  /** One more round of a wait that is not over. */
  method AwaitRound(c: C.Client, ghost keys: seq<Key>, rounds: seq<Round>, n: nat, ghost complete: nat, ghost marks: seq<State>)
    returns (ret: int)
    requires C.Ready(c) && n < |rounds| && |marks| == n + 1 && marks[n] == c.abs && complete <= |keys|
    requires Going(marks, keys, rounds) && AllPolled(c.abs, keys, complete) && !AllPolled(c.abs, keys, |keys|)
    modifies c`lastDoneId, c`executed, c`lastTrigger, c`tx, c`rx, c`abs, c`book, c.posted
    modifies c.book.req.Values`next, c.book.req.Values`prev, c.book.req.Values`status
    ensures C.Ready(c) && c.book.req == old(c.book).req && AllPolled(c.abs, keys, complete)
    ensures if ret == C.MP_SUCCESS then Going(marks + [c.abs], keys, rounds)
            else Awaited(marks + [c.abs], keys, rounds, FAILURE)
  {
    ret := BothFlows(c, rounds[n]);
    AllStay(old(c.abs), c.abs, keys, complete);
    GoingOn(marks, keys, rounds, c.abs);
  }

  method AwaitRounds(c: C.Client, reqs: seq<MpRequest>, ghost keys: seq<Key>, rounds: seq<Round>)
    returns (out: Outcome, ghost marks: seq<State>)
    requires C.Ready(c)
    requires AllHandles(c.book.req, reqs) && KeysOf(keys, reqs)
    modifies c`lastDoneId, c`executed, c`lastTrigger, c`tx, c`rx, c`abs, c`book, c.posted
    modifies c.book.req.Values`next, c.book.req.Values`prev, c.book.req.Values`status
    ensures C.Ready(c) && c.book.req == old(c.book).req
    ensures Awaited(marks, keys, rounds, out) && marks[0] == old(c.abs) && marks[|marks| - 1] == c.abs
  {
    marks := [c.abs];
    GoingFrom(c.abs, keys, rounds);
    var complete, round := 0, 0;
    while complete < |reqs|
      invariant complete <= |reqs| && round <= |rounds|
      invariant C.Ready(c) && c.book.req == old(c.book).req
      invariant |marks| == round + 1 && marks[0] == old(c.abs) && marks[round] == c.abs
      invariant Going(marks, keys, rounds) && AllPolled(c.abs, keys, complete)
      decreases |reqs| - complete, |rounds| - round
    {
      WaitedAndStill(c, reqs, keys, complete);
      if reqs[complete].status == Status.Complete {
        complete := complete + 1;
      } else if round == |rounds| {
        GoingEnds(marks, keys, rounds);
        return StillWaiting, marks;
      } else {
        var ret := AwaitRound(c, keys, rounds, round, complete, marks);
        marks := marks + [c.abs];
        if ret != C.MP_SUCCESS {
          return FAILURE, marks;
        }
        round := round + 1;
      }
    }
    GoingEnds(marks, keys, rounds);
    out := SUCCESS;
  }

  // ---- mp_progress_all -----------------------------------------------------------------------------------

  /** Whether the request is complete, after a round if it was not before. */
  method OneTurn(c: C.Client, req: MpRequest, ghost key: Key, round: Round) returns (n: int, err: int)
    requires C.Ready(c) && Handle(c.book.req, req) && key == KeyOf(req)
    modifies c`lastDoneId, c`executed, c`lastTrigger, c`tx, c`rx, c`abs, c`book, c.posted
    modifies c.book.req.Values`next, c.book.req.Values`prev, c.book.req.Values`status
    ensures C.Ready(c) && c.book.req == old(c.book).req
    ensures if old(Polled(c.abs, key)) then c.abs == old(c.abs) else Rounded(old(c.abs), c.abs, round)
    ensures err == if old(!Polled(c.abs, key)) && PollFails(round) then C.MP_FAILURE else C.MP_SUCCESS
    ensures err == C.MP_SUCCESS ==> n == if Polled(c.abs, key) then 1 else 0
  {
    n, err := 0, C.MP_SUCCESS;
    ReadyIsDone(c, req);
    if req.status != Status.Complete {
      err := BothFlows(c, round.(gpuError := false));
      RoundedSame(old(c.abs), c.abs, round);
      ReadyIsDone(c, req);
    }
    if req.status == Status.Complete {
      n := 1;
    }
  }

  method CountTurn(c: C.Client, reqs: seq<MpRequest>, ghost keys: seq<Key>, r: nat, ret: int, rounds: seq<Round>,
                   ghost marks: seq<State>) returns (n: int, err: int)
    requires C.Ready(c) && AllHandles(c.book.req, reqs) && KeysOf(keys, reqs) && r < |reqs|
    requires Turning(marks, keys, rounds, ret) && |marks| == r + 1 && marks[r] == c.abs
    modifies c`lastDoneId, c`executed, c`lastTrigger, c`tx, c`rx, c`abs, c`book, c.posted
    modifies c.book.req.Values`next, c.book.req.Values`prev, c.book.req.Values`status
    ensures C.Ready(c) && c.book.req == old(c.book).req
    ensures if err == C.MP_SUCCESS then Turning(marks + [c.abs], keys, rounds, ret + n)
            else err == C.MP_FAILURE && ProgressedAll(marks + [c.abs], keys, rounds, err, true)
  {
    assert Handle(c.book.req, reqs[r]) && keys[r] == KeyOf(reqs[r]);
    n, err := OneTurn(c, reqs[r], keys[r], rounds[r]);
    TurningOn(marks, keys, rounds, ret, c.abs);
  }

  /**
    mp_progress_all: a round for each request that is not complete at its turn, and nothing is released.
    The result counts the requests seen complete; a failed poll ends the call with MP_FAILURE, which is
    also what one complete request gives.
   */
  method ProgressAll(c: C.Client, reqs: seq<MpRequest>, ghost keys: seq<Key>, rounds: seq<Round>)
    returns (ret: int, ghost failed: bool, ghost marks: seq<State>)
    requires C.Ready(c) && AllHandles(c.book.req, reqs) && KeysOf(keys, reqs) && |rounds| == |reqs|
    modifies c`lastDoneId, c`executed, c`lastTrigger, c`tx, c`rx, c`abs, c`book, c.posted
    modifies c.book.req.Values`next, c.book.req.Values`prev, c.book.req.Values`status
    ensures C.Ready(c) && Leads(old(c.abs), c.abs) && c.book.req == old(c.book).req
    ensures ProgressedAll(marks, keys, rounds, ret, failed) && marks[0] == old(c.abs) && marks[|marks| - 1] == c.abs
    ensures !failed ==> CountedTo(old(c.abs), c.abs, keys, |keys|, ret)
  {
    C.Look(c);
    ret, failed, marks := ProgressTurns(c, reqs, keys, rounds);
    TurnsLead(marks, keys, rounds, |marks| - 1);
    SeenBetween(marks, keys, rounds, |marks| - 1);
  }

  method ProgressTurns(c: C.Client, reqs: seq<MpRequest>, ghost keys: seq<Key>, rounds: seq<Round>)
    returns (ret: int, ghost failed: bool, ghost marks: seq<State>)
    requires C.Ready(c) && AllHandles(c.book.req, reqs) && KeysOf(keys, reqs) && |rounds| == |reqs|
    modifies c`lastDoneId, c`executed, c`lastTrigger, c`tx, c`rx, c`abs, c`book, c.posted
    modifies c.book.req.Values`next, c.book.req.Values`prev, c.book.req.Values`status
    ensures C.Ready(c) && c.book.req == old(c.book).req
    ensures ProgressedAll(marks, keys, rounds, ret, failed) && marks[0] == old(c.abs) && marks[|marks| - 1] == c.abs
  {
    var r := 0;
    ret, failed, marks := 0, false, [c.abs];
    TurningFrom(c.abs, keys, rounds);
    while r < |reqs|
      invariant r <= |reqs| && C.Ready(c) && c.book.req == old(c.book).req
      invariant Turning(marks, keys, rounds, ret) && |marks| == r + 1 && marks[r] == c.abs && marks[0] == old(c.abs)
    {
      var n, err := CountTurn(c, reqs, keys, r, ret, rounds, marks);
      marks := marks + [c.abs];
      if err != C.MP_SUCCESS {
        return err, true, marks;
      }
      ret, r := ret + n, r + 1;
    }
    TurningEnds(marks, keys, rounds, ret);
  }

  // ---- the third loop ------------------------------------------------------------------------------------

  function Reversed<T>(q: seq<T>): (r: seq<T>) {
    if q == [] then [] else [q[|q| - 1]] + Reversed(q[..|q| - 1])
  }

  /** The first occurrences in q, in order. */
  function Firsts<T(==)>(q: seq<T>): (p: seq<T>) {
    if q == [] then []
    else
      var p, r := Firsts(q[..|q| - 1]), q[|q| - 1];
      if r in p then p else p + [r]
  }

  lemma {:induction false} FirstsIff<T>(q: seq<T>)
    ensures forall x :: x in Firsts(q) <==> x in q
    ensures Firsts(q) == q <==> Distinct(q)
    ensures Distinct(Firsts(q)) && |Firsts(q)| <= |q|
  {
    if q != [] {
      var n, init := |q| - 1, q[..|q| - 1];
      FirstsIff(init);
      assert q == init + [q[n]];
      if q[n] in init {
        var k :| 0 <= k < n && init[k] == q[n];
        assert q[k] == q[n];
      } else {
        assert Firsts(q) == Firsts(init) + [q[n]];
        if Firsts(q) == q { assert Firsts(q)[..|Firsts(init)|] == Firsts(init); }
        assert Distinct(q) ==> Distinct(init) by {
          if Distinct(q) {
            forall i, j | 0 <= i < j < n ensures init[i] != init[j] { assert q[i] != q[j]; }
          }
        }
      }
    }
  }

  /** The record itself goes back to the pool; the other records and the posted list do not notice. */
  method ReturnRecord(pool: Pool, posted: PostedList.List, r: MpRequest, ghost x: nat, ghost g: Book)
    requires pool.Valid() && r in pool.live && Faithful(g) && posted.Valid() && r !in posted.items
    requires x in g.req && g.req[x] == r && g.req.Keys == g.place.Keys
    requires forall id :: id in g.req && id != x ==> g.req[id] != r
    modifies pool, r`next, r`prev, r`kind, r`status
    ensures pool.Valid() && pool.regions == old(pool.regions) && pool.records == old(pool.records)
    ensures pool.free == [r] + old(pool.free) && pool.live == old(pool.live) - {r}
    ensures r.status == Undef && r.kind == NullReq && posted.Valid() && Faithful(Drop(g, x))
  {
    pool.Release(r);
    forall id | id in g.req && id != x ensures Matches(g.req[id], g.says[id], g.place[id]) {
      assert old(Matches(g.req[id], g.says[id], g.place[id]));
    }
    FaithfulDrop(g, x);
  }

  /** release_mp_request of a completed request. */
  method ReleaseDone(c: C.Client, pool: Pool, r: MpRequest)
    requires c.Valid() && pool.Valid() && c.Owns(pool) && Handle(c.book.req, r) && r.status == Status.Complete
    modifies c`tx, c`rx, c`abs, c`book, pool, r`next, r`prev, r`kind, r`status
    ensures c.Valid() && c.abs == old(c.abs) && c.book == Drop(old(c.book), old(r.id))
    ensures pool.Valid() && c.Owns(pool) && pool.regions == old(pool.regions) && r.status == Undef && Stale(r)
    ensures pool.free == [r] + old(pool.free) && pool.live == old(pool.live) - {r} && pool.records == old(pool.records)
    ensures c.Others(pool) == old(c.Others(pool))
  {
    ghost var s, g, x := c.abs, c.book, r.id;
    CompleteIsDone(c, r);
    OthersDiffer(s, g, x, r);
    DroppedApart(pool.live, g.req, x);
    NotPosted(s, g, c.tx, c.rx, c.posted.items, x, g.place[x], r);
    ReleaseAccount(s, g, c.tx, c.rx, c.posted.items, x, FlowOf(r.kind));
    ReturnRecord(pool, c.posted, r, x, g);
    c.Settle(s, Drop(g, x));
  }

  /** What releasing reqs[n] adds to the records released so far. */
  lemma FirstsNext(q: seq<MpRequest>, n: nat)
    requires n < |q|
    ensures Firsts(q[..n + 1]) == if q[n] in q[..n] then Firsts(q[..n]) else Firsts(q[..n]) + [q[n]]
    ensures q[n] !in q[..n] ==> Reversed(Firsts(q[..n + 1])) == [q[n]] + Reversed(Firsts(q[..n]))
    ensures forall x :: x in q[..n + 1] <==> x in q[..n] || x == q[n]
    ensures Firsts(q[..n + 1]) == q[..n + 1] <==> Firsts(q[..n]) == q[..n] && q[n] !in q[..n]
  {
    var p := q[..n + 1];
    assert p[..n] == q[..n] && p == q[..n] + [q[n]];
    FirstsIff(q[..n]);
    FirstsIff(p);
    if q[n] !in q[..n] {
      var f := Firsts(q[..n]);
      assert (f + [q[n]])[..|f|] == f;
      if f != q[..n] { assert Firsts(p)[..|f|] == f; }
    }
  }

  /** The records of reqs that are still to be released are those of complete live requests. */
  ghost predicate ToRelease(req: map<nat, MpRequest>, reqs: seq<MpRequest>, n: nat)
    requires n <= |reqs|
    reads (set r | r in reqs)`id, (set r | r in reqs)`status, (set r | r in reqs)`kind
  {
    forall i {:trigger reqs[i]} :: 0 <= i < |reqs| ==>
      if reqs[i] in reqs[..n] then reqs[i].status == Undef && Stale(reqs[i])
      else reqs[i].status == Status.Complete && Handle(req, reqs[i])
  }

  /** The body of the releasing loop. */
  method ReleaseNext(c: C.Client, pool: Pool, req: MpRequest, ghost reqs: seq<MpRequest>, ghost n: nat) returns (ok: bool)
    requires c.Valid() && pool.Valid() && c.Owns(pool) && n < |reqs| && ToRelease(c.book.req, reqs, n)
    requires req == reqs[n]
    modifies c`tx, c`rx, c`abs, c`book, pool
    modifies req`next, req`prev, req`kind, req`status
    ensures c.Valid() && c.abs == old(c.abs) && pool.Valid() && c.Owns(pool) && pool.regions == old(pool.regions)
    ensures ok <==> req !in reqs[..n]
    ensures ok ==> pool.free == [req] + old(pool.free) && pool.live == old(pool.live) - {req}
    ensures !ok ==> pool.free == old(pool.free) && pool.live == old(pool.live)
    ensures c.Others(pool) == old(c.Others(pool)) && pool.records == old(pool.records)
    ensures c.book.req == if ok then old(c.book).req - {old(req.id)} else old(c.book).req
    ensures ToRelease(c.book.req, reqs, n + 1)
  {
    FirstsNext(reqs, n);
    ok := req.status == Status.Complete;
    if ok {
      ghost var g := c.book;
      ReleaseDone(c, pool, req);
      forall i | 0 <= i < |reqs| && reqs[i] !in reqs[..n + 1]
        ensures reqs[i].status == Status.Complete && Handle(c.book.req, reqs[i])
      {
        assert reqs[i] !in reqs[..n] && reqs[i] != req;
      }
    }
  }

  function Members(q: seq<MpRequest>): (m: set<MpRequest>) { set r | r in q }

  /** The records of q, each once, are at the head of the free list in reverse order, and not live. */
  ghost predicate Freed(pool: Pool, q: seq<MpRequest>, free: seq<MpRequest>, live: set<MpRequest>)
    reads pool
  {
    pool.free == Reversed(Firsts(q)) + free && pool.live == live - Members(q)
  }

  /** What releasing q[n] as well adds to the free list, and takes from the live records. */
  lemma ReleasedNext(q: seq<MpRequest>, n: nat, free: seq<MpRequest>)
    requires n < |q|
    ensures var r := Reversed(Firsts(q[..n])) + free;
      Reversed(Firsts(q[..n + 1])) + free == if q[n] in q[..n] then r else [q[n]] + r
  {
    FirstsNext(q, n);
    var r, f := Reversed(Firsts(q[..n])), Reversed(Firsts(q[..n + 1]));
    if q[n] !in q[..n] {
      assert f == [q[n]] + r;
      assert [q[n]] + (r + free) == ([q[n]] + r) + free;
    }
  }

  lemma MembersNext(q: seq<MpRequest>, n: nat)
    requires n < |q|
    ensures Members(q[..n + 1]) == Members(q[..n]) + {q[n]}
  {
    assert q[..n + 1] == q[..n] + [q[n]];
  }

  lemma FreedNext(pool: Pool, was: seq<MpRequest>, had: set<MpRequest>, q: seq<MpRequest>, n: nat,
                  free: seq<MpRequest>, live: set<MpRequest>)
    requires n < |q| && was == Reversed(Firsts(q[..n])) + free && had == live - Members(q[..n])
    requires pool.free == (if q[n] in q[..n] then was else [q[n]] + was)
    requires pool.live == (if q[n] in q[..n] then had else had - {q[n]})
    ensures Freed(pool, q[..n + 1], free, live)
  {
    ReleasedNext(q, n, free);
    MembersNext(q, n);
    assert q[n] in q[..n] ==> q[n] in Members(q[..n]);
  }

  ghost predicate NoRepeat(q: seq<MpRequest>) { Firsts(q) == q }

  /** The live requests but for those named by the first n keys. */
  ghost function Without(req: map<nat, MpRequest>, keys: seq<Key>, n: nat): (rest: map<nat, MpRequest>)
    requires n <= |keys|
  {
    if n == 0 then req else Without(req, keys, n - 1) - {keys[n - 1].id}
  }

  /** What is left is what was there, less the ids named. */
  lemma {:induction false} WithoutIff(req: map<nat, MpRequest>, keys: seq<Key>, n: nat)
    requires n <= |keys|
    ensures forall id :: id in Without(req, keys, n) <==> id in req && forall i :: 0 <= i < n ==> keys[i].id != id
    ensures forall id :: id in Without(req, keys, n) ==> Without(req, keys, n)[id] == req[id]
  {
    if n > 0 { WithoutIff(req, keys, n - 1); }
  }

  /** A record listed before was dropped already. */
  lemma WithoutNext(req: map<nat, MpRequest>, keys: seq<Key>, reqs: seq<MpRequest>, n: nat)
    requires n < |reqs| && Ids(keys, reqs)
    ensures reqs[n] in reqs[..n] ==> Without(req, keys, n + 1) == Without(req, keys, n)
    ensures Without(req, keys, n + 1) == Without(req, keys, n) - {reqs[n].id}
  {
    if reqs[n] in reqs[..n] {
      var i :| 0 <= i < n && reqs[..n][i] == reqs[n];
      assert keys[i].id == keys[n].id;
      WithoutIff(req, keys, n);
    }
  }

  ghost predicate Ids(keys: seq<Key>, reqs: seq<MpRequest>)
    reads (set r | r in reqs)`id
  {
    |keys| == |reqs| && forall i {:trigger keys[i]} :: 0 <= i < |reqs| ==> keys[i].id == reqs[i].id
  }

  /** What releasing does not change: the regions, their records, and whose the other live records are. */
  datatype Kept = Kept(regions: nat, records: set<MpRequest>, others: set<MpRequest>)

  ghost function KeptOf(c: C.Client, pool: Pool): (k: Kept)
    reads c, pool
  {
    Kept(pool.regions, pool.records, c.Others(pool))
  }

  /** Looked into by LookKept only. */
  predicate InKept(k: int) { 0 <= k }

  ghost predicate Keeps(c: C.Client, pool: Pool, k: Kept)
    reads c, pool, pool.free
  {
    forall m {:trigger InKept(m)} :: InKept(m) ==> pool.Valid() && c.Owns(pool) && KeptOf(c, pool) == k
  }

  lemma LookKept(c: C.Client, pool: Pool, k: Kept)
    requires Keeps(c, pool, k)
    ensures pool.Valid() && c.Owns(pool) && KeptOf(c, pool) == k
  {
    assert InKept(0);
  }

  /** What the releasing loop started from. */
  datatype Before = Before(abs: State, req: map<nat, MpRequest>, free: seq<MpRequest>, live: set<MpRequest>, kept: Kept)

  /** The first n records of reqs were released. */
  ghost predicate ReleasedTo(c: C.Client, pool: Pool, reqs: seq<MpRequest>, keys: seq<Key>, n: nat, was: Before)
    requires n <= |reqs| == |keys|
    reads c, c.book.req.Values, c.posted, c.posted.items, pool, pool.free
    reads (set r | r in reqs)`id, (set r | r in reqs)`status, (set r | r in reqs)`kind
  {
    forall m {:trigger Noted(m)} :: Noted(m) ==>
      && C.Ready(c) && c.abs == was.abs && Keeps(c, pool, was.kept)
      && ToRelease(c.book.req, reqs, n) && Freed(pool, reqs[..n], was.free, was.live)
      && Ids(keys, reqs) && c.book.req == Without(was.req, keys, n)
  }

  lemma LookReleased(c: C.Client, pool: Pool, reqs: seq<MpRequest>, keys: seq<Key>, n: nat, was: Before)
    requires n <= |reqs| == |keys| && ReleasedTo(c, pool, reqs, keys, n, was)
    ensures C.Ready(c) && c.abs == was.abs && Keeps(c, pool, was.kept)
    ensures ToRelease(c.book.req, reqs, n) && Freed(pool, reqs[..n], was.free, was.live)
    ensures Ids(keys, reqs) && c.book.req == Without(was.req, keys, n)
  {
    assert Noted(0);
  }

  method ReleaseOne(c: C.Client, pool: Pool, req: MpRequest, ghost reqs: seq<MpRequest>, ghost n: nat,
                    ghost keys: seq<Key>, ghost was: Before) returns (ok: bool)
    requires C.Ready(c) && Keeps(c, pool, was.kept) && n < |reqs| == |keys| && ToRelease(c.book.req, reqs, n)
    requires req == reqs[n] && Freed(pool, reqs[..n], was.free, was.live)
    requires Ids(keys, reqs) && c.book.req == Without(was.req, keys, n)
    modifies c`tx, c`rx, c`abs, c`book, pool
    modifies req`next, req`prev, req`kind, req`status
    ensures C.Ready(c) && c.abs == old(c.abs) && Keeps(c, pool, was.kept)
    ensures NoRepeat(reqs[..n + 1]) <==> NoRepeat(reqs[..n]) && ok
    ensures ToRelease(c.book.req, reqs, n + 1) && Freed(pool, reqs[..n + 1], was.free, was.live)
    ensures c.book.req == Without(was.req, keys, n + 1)
  {
    C.Look(c);
    LookKept(c, pool, was.kept);
    FirstsNext(reqs, n);
    WithoutNext(was.req, keys, reqs, n);
    ghost var held, had := pool.free, pool.live;
    ok := ReleaseNext(c, pool, req, reqs, n);
    FreedNext(pool, held, had, reqs, n, was.free, was.live);
  }

  method ReleaseStep(c: C.Client, pool: Pool, req: MpRequest, ghost reqs: seq<MpRequest>, ghost n: nat,
                     ghost keys: seq<Key>, ghost was: Before) returns (ok: bool)
    requires n < |reqs| == |keys| && req == reqs[n] && ReleasedTo(c, pool, reqs, keys, n, was)
    modifies c`tx, c`rx, c`abs, c`book, pool
    modifies req`next, req`prev, req`kind, req`status
    ensures ReleasedTo(c, pool, reqs, keys, n + 1, was)
    ensures NoRepeat(reqs[..n + 1]) <==> NoRepeat(reqs[..n]) && ok
  {
    LookReleased(c, pool, reqs, keys, n, was);
    ok := ReleaseOne(c, pool, req, reqs, n, keys, was);
  }

  /** Each record goes back to the pool once; listing a request twice is an error. */
  method ReleaseAll(c: C.Client, pool: Pool, reqs: seq<MpRequest>, ghost keys: seq<Key>, ghost was: Before) returns (ret: int)
    requires |keys| == |reqs| && ReleasedTo(c, pool, reqs, keys, 0, was)
    modifies c`tx, c`rx, c`abs, c`book, pool
    modifies (set r | r in reqs)`next, (set r | r in reqs)`prev, (set r | r in reqs)`kind, (set r | r in reqs)`status
    ensures ReleasedTo(c, pool, reqs, keys, |reqs|, was)
    ensures ret == if Distinct(reqs) then C.MP_SUCCESS else C.MP_FAILURE
  {
    ret := C.MP_SUCCESS;
    var complete := 0;
    assert reqs[..0] == [];
    while complete < |reqs|
      invariant complete <= |reqs| && ReleasedTo(c, pool, reqs, keys, complete, was)
      invariant ret == if NoRepeat(reqs[..complete]) then C.MP_SUCCESS else C.MP_FAILURE
    {
      var ok := ReleaseStep(c, pool, reqs[complete], reqs, complete, keys, was);
      if !ok {
        ret := C.MP_FAILURE;
      }
      complete := complete + 1;
    }
    assert reqs[..complete] == reqs;
    FirstsIff(reqs);
  }

  /** The releasing loop can start: everything is complete. */
  lemma ReleaseStart(c: C.Client, pool: Pool, reqs: seq<MpRequest>, keys: seq<Key>)
    requires C.Ready(c) && pool.Valid() && c.Owns(pool) && KeysOf(keys, reqs) && ToRelease(c.book.req, reqs, 0)
    ensures ReleasedTo(c, pool, reqs, keys, 0, Before(c.abs, c.book.req, pool.free, pool.live, KeptOf(c, pool)))
  {
    assert reqs[..0] == [] && pool.live - Members([]) == pool.live;
    assert Reversed(Firsts<MpRequest>([])) + pool.free == pool.free;
  }

  /** What it leaves. */
  lemma ReleaseEnd(c: C.Client, pool: Pool, reqs: seq<MpRequest>, keys: seq<Key>, was: Before)
    requires |keys| == |reqs| && ReleasedTo(c, pool, reqs, keys, |reqs|, was)
    ensures C.Ready(c) && c.abs == was.abs && pool.Valid() && c.Owns(pool) && KeptOf(c, pool) == was.kept
    ensures Freed(pool, reqs, was.free, was.live) && c.book.req == Without(was.req, keys, |keys|)
    ensures forall r :: r in reqs ==> Stale(r)
  {
    LookReleased(c, pool, reqs, keys, |reqs|, was);
    LookKept(c, pool, was.kept);
    assert reqs[..|reqs|] == reqs;
  }

  // ---- the whole call ------------------------------------------------------------------------------------

  /** The first two loops: nothing is released, and success means every completion was polled. */
  method AwaitCompletion(c: C.Client, reqs: seq<MpRequest>, ghost keys: seq<Key>, postWait: seq<int>, rounds: seq<Round>)
    returns (out: Outcome, ghost marks: seq<State>)
    requires C.Ready(c) && |postWait| == |reqs|
    requires AllReturned(c.book.req, reqs) && KeysOf(keys, reqs)
    modifies c`lastDoneId, c`executed, c`lastTrigger, c`tx, c`rx, c`abs, c`book, c.posted
    modifies c.book.req.Values`next, c.book.req.Values`prev, c.book.req.Values`status
    ensures C.Ready(c) && Leads(old(c.abs), c.abs) && c.book.req == old(c.book).req
    ensures Ended(marks, keys, rounds, old(Verdict(reqs, postWait, |reqs|)), out)
    ensures marks[0] == old(c.abs) && marks[|marks| - 1] == c.abs
    ensures old(Verdict(reqs, postWait, |reqs|)) == SUCCESS && old(Ripe(c.abs, keys) && Enough(c.abs, rounds)) ==> out == SUCCESS
    ensures out == SUCCESS ==> old(AllWaitable(reqs)) && AllPolled(c.abs, keys, |keys|)
  {
    out := StartWaits(c, reqs, postWait);
    marks := [c.abs];
    LeadsHere(c.abs);
    if out != SUCCESS {
      return;
    }
    HandlesOf(c.book, reqs);
    out, marks := AwaitAll(c, reqs, keys, rounds);
  }

  lemma Releasable(c: C.Client, reqs: seq<MpRequest>, keys: seq<Key>)
    requires C.Ready(c) && KeysOf(keys, reqs) && AllPolled(c.abs, keys, |keys|)
    requires AllHandles(c.book.req, reqs)
    ensures ToRelease(c.book.req, reqs, 0)
  {
    C.Look(c);
    forall i | 0 <= i < |reqs| ensures reqs[i].status == Status.Complete && Handle(c.book.req, reqs[i]) {
      assert Handle(c.book.req, reqs[i]) && Polled(c.abs, keys[i]);
      CompleteIsDone(c, reqs[i]);
    }
  }

  /** The third loop, on requests that are all complete. */
  method ReleaseComplete(c: C.Client, pool: Pool, reqs: seq<MpRequest>, ghost keys: seq<Key>) returns (ret: int)
    requires C.Ready(c) && pool.Valid() && c.Owns(pool) && AllHandles(c.book.req, reqs) && KeysOf(keys, reqs)
    requires AllPolled(c.abs, keys, |keys|)
    modifies c`tx, c`rx, c`abs, c`book, pool
    modifies (set r | r in reqs)`next, (set r | r in reqs)`prev, (set r | r in reqs)`kind, (set r | r in reqs)`status
    ensures C.Ready(c) && c.abs == old(c.abs)
    ensures pool.Valid() && c.Owns(pool) && KeptOf(c, pool) == old(KeptOf(c, pool))
    ensures ret == if Distinct(reqs) then C.MP_SUCCESS else C.MP_FAILURE
    ensures Freed(pool, reqs, old(pool.free), old(pool.live)) && forall r :: r in reqs ==> Stale(r)
    ensures c.book.req == Without(old(c.book).req, keys, |keys|)
  {
    Releasable(c, reqs, keys);
    ghost var was := Before(c.abs, c.book.req, pool.free, pool.live, KeptOf(c, pool));
    ReleaseStart(c, pool, reqs, keys);
    ret := ReleaseAll(c, pool, reqs, keys, was);
    ReleaseEnd(c, pool, reqs, keys, was);
  }

  /**
    mp_wait_all. The checks decide whether the wait begins; the wait goes on until a round fails or all
    completions are polled, and always gets there when they are on the CQs and the rounds suffice. Then
    exactly the records listed went back to the pool, each once; a request listed twice is an error found
    after releasing. Every other failure releases nothing.
   */
  method WaitAll(c: C.Client, pool: Pool, reqs: seq<MpRequest>, ghost keys: seq<Key>, postWait: seq<int>, rounds: seq<Round>)
    returns (out: Outcome, ghost complete: bool, ghost marks: seq<State>)
    requires C.Ready(c) && pool.Valid() && c.Owns(pool) && |postWait| == |reqs|
    requires AllReturned(c.book.req, reqs) && KeysOf(keys, reqs)
    modifies c`lastDoneId, c`executed, c`lastTrigger, c`tx, c`rx, c`abs, c`book, c.posted, pool
    modifies c.book.req.Values`next, c.book.req.Values`prev, c.book.req.Values`status, c.book.req.Values`kind
    ensures C.Ready(c) && Leads(old(c.abs), c.abs)
    ensures Ended(marks, keys, rounds, old(Verdict(reqs, postWait, |reqs|)), if complete then SUCCESS else out)
    ensures marks[0] == old(c.abs) && marks[|marks| - 1] == c.abs
    ensures old(Verdict(reqs, postWait, |reqs|)) == SUCCESS && old(Ripe(c.abs, keys) && Enough(c.abs, rounds)) ==> complete
    ensures pool.Valid() && c.Owns(pool) && KeptOf(c, pool) == old(KeptOf(c, pool))
    ensures complete ==> out == if Distinct(reqs) then SUCCESS else FAILURE
    ensures complete ==> Freed(pool, reqs, old(pool.free), old(pool.live))
    ensures complete ==> c.book.req == Without(old(c.book).req, keys, |keys|)
    ensures complete ==> AllPolled(c.abs, keys, |keys|) && forall r :: r in reqs ==> Stale(r)
    ensures !complete ==> out != SUCCESS
    ensures !complete ==> pool.free == old(pool.free) && pool.live == old(pool.live) && c.book.req == old(c.book).req
  {
    BookApart(c, pool);
    if AllWaitable(reqs) { HandlesOf(c.book, reqs); }
    out, marks := AwaitCompletion(c, reqs, keys, postWait, rounds);
    complete := out == SUCCESS;
    if out == SUCCESS {
      var ret := ReleaseComplete(c, pool, reqs, keys);
      out := Finished(ret);
    }
  }

  lemma BookApart(c: C.Client, pool: Pool)
    requires C.Ready(c) && pool.Valid() && c.Owns(pool)
    ensures forall r :: r in c.book.req.Values ==> r !in pool.free
  {
    pool.Look();
  }
}
