/** What the operations of a program on a client are as steps of the machine, and what a history of them promises. */
module SessionSpec {
  import opened Requests
  import opened EventSync
  import opened EventSyncInvariant
  import opened EventSyncTheorems
  import opened ProgressSpec
  import opened BatchSpec
  import opened ProgressEffect
  import opened RoundSpec
  import C = Client
  import Posting

  /** Requests are named by their ids. */
  datatype Op =
    | SendPrepareOp
    | SendDirectOp(wait: bool)
    | PostNowOp(kind: ReqType, attempts: nat -> Posting.Attempt)
    | PostPreparedOp(id: nat, wait: bool)
    | PostBatchOp(ids: seq<nat>, wait: bool)
    | WaitStreamOp(id: nat)
    | WaitBatchOp(ids: seq<nat>)
    | ProgressOp(events: seq<Event>, flow: Flow, ok: nat -> bool, polled: int)
    | ProgressAllOp(ids: seq<nat>, rounds: seq<Round>)
    | WaitHostOp(ids: seq<nat>, postWait: seq<int>, rounds: seq<Round>)

  // ---- one operation ----------------------------------------------------------------------------------------

  /** t is s after call e, which the machine permits. */
  ghost predicate Makes(s: State, e: Step, t: State) {
    Enabled(s, e) && Permitted(s, e) && HostCall(e) && t == Apply(s, e)
  }

  function DirectOf(wait: bool): (e: Step) { if wait then SendOnStream else IsendOnStream }

  /**
    The id is drawn, and the retries, n of them answered by a full queue, make progress on the flow of the
    request: the machine goes from s to u. The last attempt decides whether the request was taken.
   */
  ghost predicate PostsFrom(s: State, u: State, marks: seq<State>, n: nat, kind: ReqType, attempts: nat -> Posting.Attempt,
                            t: State) {
    && Leads(s, u) && Posting.EndsAt(attempts, n)
    && Posting.Tries(marks, if kind.RecvReq? then RX else TX, attempts) && Posting.TriedFor(marks, attempts, n)
    && marks[0] == Fresh(s) && marks[|marks| - 1] == Fresh(u)
    && Makes(u, if attempts(n).Taken? then Posting.StepOf(kind) else PutNowait, t)
  }

  /** The requests are those with the given ids. */
  predicate KeysFor(keys: seq<Key>, ids: seq<nat>) {
    |keys| == |ids| && forall i {:trigger keys[i]} :: 0 <= i < |keys| ==> keys[i].id == ids[i]
  }

  ghost predicate ProgressesFor(s: State, marks: seq<State>, keys: seq<Key>, ids: seq<nat>, rounds: seq<Round>, ret: int,
                             failed: bool, t: State) {
    && Leads(s, t) && KeysFor(keys, ids) && ProgressedAll(marks, keys, rounds, ret, failed)
    && marks[0] == s && marks[|marks| - 1] == t
  }

  ghost predicate WaitsFrom(s: State, marks: seq<State>, keys: seq<Key>, ids: seq<nat>, rounds: seq<Round>,
                            verdict: Outcome, out: Outcome, t: State) {
    && Leads(s, t) && KeysFor(keys, ids) && Ended(marks, keys, rounds, verdict, out)
    && marks[0] == s && marks[|marks| - 1] == t
  }

  ghost predicate WaitsOn(s: State, f: Flow, id: nat, t: State) { Makes(s, WaitOnStream(f, id), t) }

  ghost predicate WaitsAll(s: State, keys: seq<Awaited>, ids: seq<nat>, t: State) {
    && |keys| == |ids| && (forall i {:trigger keys[i]} :: 0 <= i < |keys| ==> keys[i].id == ids[i])
    && AllAccepted(s, keys) && t == WaitEach(s, keys)
  }

  /** The operation takes the machine from s to t. */
  ghost predicate Did(op: Op, s: State, t: State) {
    match op
    case SendPrepareOp => Makes(s, SendPrepare, t)
    case SendDirectOp(wait) => Makes(s, DirectOf(wait), t)
    case PostNowOp(kind, attempts) => exists u, marks, n: nat :: PostsFrom(s, u, marks, n, kind, attempts, t)
    case PostPreparedOp(id, wait) => Makes(s, PostOf(id, wait), t)
    case PostBatchOp(ids, wait) => InLine(s, ids) && t == PostEach(s, ids, wait)
    case WaitStreamOp(id) => exists f :: WaitsOn(s, f, id, t)
    case WaitBatchOp(ids) => exists keys :: WaitsAll(s, keys, ids, t)
    case ProgressOp(events, f, ok, polled) => Leads(s, t) && Turned(s, t, f, events, ok, polled)
    case ProgressAllOp(ids, rounds) =>
      exists marks, keys, ret, failed :: ProgressesFor(s, marks, keys, ids, rounds, ret, failed, t)
    case WaitHostOp(ids, _, rounds) =>
      exists marks, keys, verdict, out :: WaitsFrom(s, marks, keys, ids, rounds, verdict, out, t)
  }

  /** The host calls the operation consists of. */
  predicate CallsOf(op: Op, calls: seq<Step>) {
    match op
    case SendPrepareOp => calls == [SendPrepare]
    case SendDirectOp(wait) => calls == [DirectOf(wait)]
    case PostNowOp(kind, _) => calls == [Posting.StepOf(kind)] || calls == [PutNowait]
    case PostPreparedOp(id, wait) => calls == [PostOf(id, wait)]
    case PostBatchOp(ids, wait) => calls == Posts(ids, wait)
    case WaitStreamOp(id) => |calls| == 1 && calls[0].WaitOnStream? && calls[0].id == id
    case WaitBatchOp(ids) =>
      |calls| == |ids| && forall i :: 0 <= i < |ids| ==> calls[i].WaitOnStream? && calls[i].id == ids[i]
    case ProgressOp(_, _, _, _) => calls == []
    case ProgressAllOp(_, _) => calls == []
    case WaitHostOp(_, _, _) => calls == []
  }

  /** An operation is a permitted stretch of a run, with its own host calls and no others. */
  lemma DidBy(op: Op, s: State, t: State) returns (calls: seq<Step>)
    requires Did(op, s, t)
    ensures GoesBy(s, t, calls) && CallsOf(op, calls)
  {
    match op
    case SendPrepareOp => calls := [SendPrepare]; ByOne(s, SendPrepare);
    case SendDirectOp(wait) => calls := [DirectOf(wait)]; ByOne(s, DirectOf(wait));
    case PostNowOp(kind, attempts) => calls := PostNowBy(kind, attempts, s, t);
    case PostPreparedOp(id, wait) => calls := [PostOf(id, wait)]; ByOne(s, PostOf(id, wait));
    case PostBatchOp(ids, wait) => calls := Posts(ids, wait); PostEachBy(s, ids, wait);
    case WaitStreamOp(id) =>
      var f :| WaitsOn(s, f, id, t);
      calls := [WaitOnStream(f, id)];
      ByOne(s, WaitOnStream(f, id));
    case WaitBatchOp(ids) =>
      var keys: seq<Awaited> :| WaitsAll(s, keys, ids, t);
      calls := Awaits(keys);
      WaitEachBy(s, keys);
    case ProgressOp(_, _, _, _) => calls := []; ByHere(s); LeadsBy(s, [], s, t);
    case ProgressAllOp(_, _) => calls := []; ByHere(s); LeadsBy(s, [], s, t);
    case WaitHostOp(_, _, _) => calls := []; ByHere(s); LeadsBy(s, [], s, t);
  }

  lemma PostNowBy(kind: ReqType, attempts: nat -> Posting.Attempt, s: State, t: State) returns (calls: seq<Step>)
    requires exists u, marks, n: nat :: PostsFrom(s, u, marks, n, kind, attempts, t)
    ensures GoesBy(s, t, calls) && (calls == [Posting.StepOf(kind)] || calls == [PutNowait])
  {
    var u, marks, n: nat :| PostsFrom(s, u, marks, n, kind, attempts, t);
    var e := if attempts(n).Taken? then Posting.StepOf(kind) else PutNowait;
    ByHere(s);
    LeadsBy(s, [], s, u);
    ByOn(s, u, [], e);
    calls := [] + [e];
  }

  // ---- what an operation makes the stream wait for ----------------------------------------------------------

  /** The operation asks the stream to wait for request id. */
  predicate AsksFor(op: Op, s: State, id: nat) {
    match op
    case SendDirectOp(wait) => wait && id == s.lastReqId + 1
    case PostPreparedOp(x, wait) => wait && id == x && s.lastPostedTrigger < id
    case PostBatchOp(ids, wait) => wait && id in ids
    case WaitStreamOp(x) => id == x
    case WaitBatchOp(ids) => id in ids
    case _ => false
  }

  /** From here on everything queued on the stream is behind the completion of the request. */
  lemma DidFences(op: Op, s: State, t: State, id: nat) returns (f: Flow)
    requires Inv(s) && Did(op, s, t) && AsksFor(op, s, id)
    ensures Fenced(t, f, id, |t.issued|)
  {
    f := TX;
    match op
    case SendDirectOp(_) => CallFences(s, SendOnStream, TX, id);
    case PostPreparedOp(_, _) => CallFences(s, SendPost(id), TX, id);
    case PostBatchOp(ids, _) =>
      var i :| 0 <= i < |ids| && ids[i] == id;
      PostEachFences(s, ids, i);
    case WaitStreamOp(_) =>
      var g :| WaitsOn(s, g, id, t);
      f := g;
      CallFences(s, WaitOnStream(g, id), g, id);
    case WaitBatchOp(ids) =>
      var keys: seq<Awaited> :| WaitsAll(s, keys, ids, t);
      var i :| 0 <= i < |ids| && ids[i] == id;
      f := keys[i].flow;
      WaitEachFences(s, keys, i);
  }

  // ---- histories --------------------------------------------------------------------------------------------

  /** The states a fresh client was in before and after each of the operations performed so far. */
  ghost predicate History(ops: seq<Op>, marks: seq<State>) {
    && 0 < |marks| <= |ops| + 1 && marks[0] == INIT
    && forall i {:trigger ops[i]} :: 0 <= i < |marks| - 1 ==> Did(ops[i], marks[i], marks[i + 1])
  }

  lemma HistoryOn(ops: seq<Op>, marks: seq<State>, t: State)
    requires History(ops, marks) && |marks| <= |ops| && Did(ops[|marks| - 1], marks[|marks| - 1], t)
    ensures History(ops, marks + [t])
  {
    var all := marks + [t];
    forall i {:trigger ops[i]} | 0 <= i < |all| - 1 ensures Did(ops[i], all[i], all[i + 1]) {
      if i < |marks| - 1 { assert all[i + 1] == marks[i + 1]; }
    }
  }

  lemma {:induction false} HistoryGoes(ops: seq<Op>, marks: seq<State>, i: nat, j: nat)
    requires History(ops, marks) && i <= j < |marks|
    ensures Goes(marks[i], marks[j])
    decreases j
  {
    if i == j {
      GoesHere(marks[i]);
    } else {
      HistoryGoes(ops, marks, i, j - 1);
      assert Did(ops[j - 1], marks[j - 1], marks[j]);
      var calls := DidBy(ops[j - 1], marks[j - 1], marks[j]);
      ByGoes(marks[j - 1], marks[j], calls);
      GoesBoth(marks[i], marks[j - 1], marks[j]);
    }
  }

  lemma HistoryInv(ops: seq<Op>, marks: seq<State>, i: nat)
    requires History(ops, marks) && i < |marks|
    ensures Inv(marks[i])
  {
    InitInv();
    HistoryGoes(ops, marks, 0, i);
    GoesKeeps(INIT, marks[i]);
  }

  lemma FencedPolled(s: State, t: State, f: Flow, id: nat)
    requires Inv(s) && Goes(s, t) && Fenced(s, f, id, |s.issued|) && |s.issued| <= t.executed
    ensures id in LaneOf(t, f).polled
  {
    GoesKeeps(s, t);
    FencedExtends(s, t, f, id, |s.issued|);
    if id !in LaneOf(t, f).polled {
      var p, w :| p < |s.issued| && id <= w && WaitAt(t, p, f, w);
      TrackedCoversBelow(t, f, id, w);
    }
  }

  lemma HistoryFences(ops: seq<Op>, marks: seq<State>, i: nat, id: nat) returns (f: Flow)
    requires History(ops, marks) && i < |marks| - 1 && AsksFor(ops[i], marks[i], id)
    ensures Fenced(marks[i + 1], f, id, |marks[i + 1].issued|)
  {
    HistoryInv(ops, marks, i);
    assert Did(ops[i], marks[i], marks[i + 1]);
    f := DidFences(ops[i], marks[i], marks[i + 1], id);
  }

  lemma FencedAlong(ops: seq<Op>, marks: seq<State>, k: nat, f: Flow, id: nat)
    requires History(ops, marks) && k < |marks| && Fenced(marks[k], f, id, |marks[k].issued|)
    requires |marks[k].issued| <= marks[|marks| - 1].executed
    ensures id in LaneOf(marks[|marks| - 1], f).polled
  {
    HistoryInv(ops, marks, k);
    HistoryGoes(ops, marks, k, |marks| - 1);
    FencedPolled(marks[k], marks[|marks| - 1], f, id);
  }

  /**
    Event-sync safety along a history: once the stream has run past everything that was queued when
    operation i asked it to wait for a request, the completion of that request has been polled.
   */
  lemma PassedIsPolled(ops: seq<Op>, marks: seq<State>, i: nat, id: nat)
    requires History(ops, marks) && i < |marks| - 1 && AsksFor(ops[i], marks[i], id)
    requires |marks[i + 1].issued| <= marks[|marks| - 1].executed
    ensures var t := marks[|marks| - 1]; id in t.tx.polled || id in t.rx.polled
  {
    var f := HistoryFences(ops, marks, i, id);
    FencedAlong(ops, marks, i + 1, f, id);
  }

  // ---- the run behind a history -----------------------------------------------------------------------------

  /** A run that goes through the marks; between two of them are the host calls of one operation and no others. */
  ghost predicate RunThrough(ops: seq<Op>, marks: seq<State>, states: seq<State>, steps: seq<Step>, cuts: seq<nat>) {
    && Run(states, steps)
    && 0 < |cuts| == |marks| <= |ops| + 1 && cuts[|cuts| - 1] == |steps|
    && AllCuts(marks, states, cuts) && AllBetween(ops, steps, cuts)
  }

  ghost predicate AllCuts(marks: seq<State>, states: seq<State>, cuts: seq<nat>) {
    forall i {:trigger CutAt(marks, states, cuts, i)} :: 0 <= i < |cuts| ==> CutAt(marks, states, cuts, i)
  }

  ghost predicate AllBetween(ops: seq<Op>, steps: seq<Step>, cuts: seq<nat>) {
    forall i {:trigger Between(ops, steps, cuts, i)} :: 0 <= i < |cuts| - 1 ==> Between(ops, steps, cuts, i)
  }

  ghost predicate CutAt(marks: seq<State>, states: seq<State>, cuts: seq<nat>, i: int) {
    0 <= i < |cuts| && i < |marks| && cuts[i] < |states| && states[cuts[i]] == marks[i]
  }

  /** The host calls among the steps are those of the operation. */
  ghost predicate CallsFit(op: Op, steps: seq<Step>) {
    forall k {:trigger Noted(k)} :: Noted(k) ==> CallsOf(op, HostSteps(steps))
  }

  lemma LookFit(op: Op, steps: seq<Step>)
    requires CallsFit(op, steps)
    ensures CallsOf(op, HostSteps(steps))
  {
    assert Noted(0);
  }

  ghost predicate Between(ops: seq<Op>, steps: seq<Step>, cuts: seq<nat>, i: int) {
    && 0 <= i < |cuts| - 1 && i < |ops| && cuts[i] <= cuts[i + 1] <= |steps|
    && CallsFit(ops[i], steps[cuts[i]..cuts[i + 1]])
  }

  lemma JoinRuns(states: seq<State>, steps: seq<Step>, ss: seq<State>, es: seq<Step>)
    requires Disciplined(states, steps) && Disciplined(ss, es) && ss[0] == states[|steps|]
    ensures Disciplined(states + ss[1..], steps + es)
    ensures (states + ss[1..])[|steps| + |es|] == ss[|es|]
  {
    var all, moves := states + ss[1..], steps + es;
    forall i {:trigger moves[i]} | 0 <= i < |moves|
      ensures Enabled(all[i], moves[i]) && all[i + 1] == Apply(all[i], moves[i]) && Permitted(all[i], moves[i])
    {
      if i < |steps| {
        assert moves[i] == steps[i] && all[i] == states[i] && all[i + 1] == states[i + 1];
      } else {
        var j := i - |steps|;
        assert moves[i] == es[j] && all[i] == ss[j] && all[i + 1] == ss[j + 1];
      }
    }
  }

  lemma CutsOn(marks: seq<State>, states: seq<State>, cuts: seq<nat>, t: State, all: seq<State>, end: nat)
    requires AllCuts(marks, states, cuts) && |cuts| == |marks| && states <= all && end < |all| && all[end] == t
    ensures AllCuts(marks + [t], all, cuts + [end])
  {
    var m, ends := marks + [t], cuts + [end];
    forall i | 0 <= i < |ends| ensures CutAt(m, all, ends, i) {
      if i < |cuts| { assert CutAt(marks, states, cuts, i); }
    }
  }

  lemma BetweenSame(ops: seq<Op>, steps: seq<Step>, cuts: seq<nat>, i: nat, moves: seq<Step>, ends: seq<nat>)
    requires Between(ops, steps, cuts, i) && steps <= moves && cuts <= ends
    ensures Between(ops, moves, ends, i)
  {
    assert moves[cuts[i]..cuts[i + 1]] == steps[cuts[i]..cuts[i + 1]];
  }

  lemma BetweenNew(ops: seq<Op>, steps: seq<Step>, cuts: seq<nat>, es: seq<Step>)
    requires 0 < |cuts| <= |ops| && cuts[|cuts| - 1] == |steps| && CallsFit(ops[|cuts| - 1], es)
    ensures Between(ops, steps + es, cuts + [|steps| + |es|], |cuts| - 1)
  {
    assert (steps + es)[|steps|..|steps| + |es|] == es;
  }

  lemma BetweenOn(ops: seq<Op>, steps: seq<Step>, cuts: seq<nat>, moves: seq<Step>, end: nat)
    requires AllBetween(ops, steps, cuts) && 0 < |cuts| && steps <= moves
    requires Between(ops, moves, cuts + [end], |cuts| - 1)
    ensures AllBetween(ops, moves, cuts + [end])
  {
    forall i | 0 <= i < |cuts| ensures Between(ops, moves, cuts + [end], i) {
      if i < |cuts| - 1 { BetweenSame(ops, steps, cuts, i, moves, cuts + [end]); }
    }
  }

  lemma ThroughOn(ops: seq<Op>, marks: seq<State>, states: seq<State>, steps: seq<Step>, cuts: seq<nat>,
                  t: State, ss: seq<State>, es: seq<Step>)
    requires RunThrough(ops, marks, states, steps, cuts) && |marks| <= |ops|
    requires RunsTo(ss, es, marks[|marks| - 1], t) && CallsFit(ops[|marks| - 1], es)
    ensures RunThrough(ops, marks + [t], states + ss[1..], steps + es, cuts + [|steps| + |es|])
  {
    assert CutAt(marks, states, cuts, |cuts| - 1);
    JoinRuns(states, steps, ss, es);
    CutsOn(marks, states, cuts, t, states + ss[1..], |steps| + |es|);
    BetweenNew(ops, steps, cuts, es);
    BetweenOn(ops, steps, cuts, steps + es, |steps| + |es|);
  }

  /** The stretch of a run that an operation is. */
  lemma Stretch(op: Op, s: State, t: State) returns (ss: seq<State>, es: seq<Step>)
    requires Did(op, s, t)
    ensures RunsTo(ss, es, s, t) && CallsFit(op, es)
  {
    var calls := DidBy(op, s, t);
    ss, es := ByWay(s, t, calls);
  }

  lemma HistoryInit(ops: seq<Op>, marks: seq<State>)
    requires History(ops, marks) && |marks| > 1
    ensures var n := |marks| - 1; History(ops, marks[..n]) && Did(ops[n - 1], marks[n - 1], marks[n])
    ensures marks == marks[..|marks| - 1] + [marks[|marks| - 1]]
  {
    var n, init := |marks| - 1, marks[..|marks| - 1];
    forall i {:trigger ops[i]} | 0 <= i < |init| - 1 ensures Did(ops[i], init[i], init[i + 1]) {
      assert init[i] == marks[i] && init[i + 1] == marks[i + 1];
    }
  }

  lemma ThroughHere(ops: seq<Op>)
    ensures RunThrough(ops, [INIT], [INIT], [], [0])
  {
    assert CutAt([INIT], [INIT], [0], 0);
  }

  /** Every history is that of a run of the machine, with the host calls of its operations in order. */
  lemma {:induction false} HistoryRun(ops: seq<Op>, marks: seq<State>)
    returns (states: seq<State>, steps: seq<Step>, cuts: seq<nat>)
    requires History(ops, marks)
    ensures RunThrough(ops, marks, states, steps, cuts)
    decreases |marks|
  {
    var n := |marks| - 1;
    if n == 0 {
      states, steps, cuts := [INIT], [], [0];
      ThroughHere(ops);
      assert marks == [INIT];
    } else {
      HistoryInit(ops, marks);
      states, steps, cuts := HistoryRun(ops, marks[..n]);
      var ss, es := Stretch(ops[n - 1], marks[n - 1], marks[n]);
      ThroughOn(ops, marks[..n], states, steps, cuts, marks[n], ss, es);
      states, steps, cuts := states + ss[1..], steps + es, cuts + [|steps| + |es|];
    }
  }
}
