/** The batched post calls against posting the same requests one at a time. */
module BatchSpec {
  import opened EventSync
  import opened EventSyncInvariant
  import opened EventSyncTheorems
  import opened ProgressSpec

  /** mp_isend_post_on_stream, or with a wait mp_send_post_on_stream. */
  function PostOne(s: State, id: nat, wait: bool): (t: State) {
    if wait then SendPostCall(s, id) else IsendPostCall(s, id)
  }

  /** The same on each id in turn. */
  function PostEach(s: State, ids: seq<nat>, wait: bool): (t: State) {
    if ids == [] then s else PostOne(PostEach(s, ids[..|ids| - 1], wait), ids[|ids| - 1], wait)
  }

  datatype Awaited = Awaited(flow: Flow, id: nat)

  /** mp_wait_on_stream on each request in turn. */
  function WaitEach(s: State, reqs: seq<Awaited>): (t: State) {
    if reqs == [] then s
    else WaitCall(WaitEach(s, reqs[..|reqs| - 1]), reqs[|reqs| - 1].flow, reqs[|reqs| - 1].id)
  }

  /** Strictly rising ids, all above lo: the order the batched calls insist on. */
  predicate Rising(ids: seq<nat>, lo: nat) { forall i :: 0 <= i < |ids| ==> RisesAt(ids, i, lo) }

  predicate RisesAt(ids: seq<nat>, i: int, lo: nat)
    requires 0 <= i < |ids|
  {
    (if i == 0 then lo else ids[i - 1]) < ids[i]
  }

  /** The order holds for the first n ids. */
  predicate RisesTo(ids: seq<nat>, n: int, lo: nat) {
    0 <= n <= |ids| && forall i {:trigger RisesAt(ids, i, lo)} :: 0 <= i < n ==> RisesAt(ids, i, lo)
  }

  lemma RisesNext(ids: seq<nat>, n: nat, lo: nat)
    requires n < |ids| && RisesTo(ids, n, lo)
    ensures RisesAt(ids, n, lo) ==> RisesTo(ids, n + 1, lo)
    ensures !RisesAt(ids, n, lo) ==> BreaksAt(ids, n, lo)
  {
  }

  /** n is where the order breaks first, |ids| when it does not. */
  predicate BreaksAt(ids: seq<nat>, n: int, lo: nat) {
    && RisesTo(ids, n, lo)
    && (n < |ids| ==> !RisesAt(ids, n, lo))
  }

  lemma PrefixNext(ids: seq<nat>, n: nat)
    requires n < |ids|
    ensures ids[..n + 1][..n] == ids[..n] && ids[..n + 1][n] == ids[n]
  {
  }

  lemma RisingInit(ids: seq<nat>, lo: nat)
    requires Rising(ids, lo) && ids != []
    ensures Rising(ids[..|ids| - 1], lo) && RisesAt(ids, |ids| - 1, lo)
  {
    var init := ids[..|ids| - 1];
    forall i | 0 <= i < |init| ensures RisesAt(init, i, lo) { assert RisesAt(ids, i, lo); }
    assert RisesAt(ids, |ids| - 1, lo);
  }

  /** A rising batch is accepted in full: its ids join the posted list and the last one is the mark. */
  lemma {:induction false} RisingAccepted(s: State, ids: seq<nat>, wait: bool)
    requires Rising(ids, s.lastPostedTrigger)
    ensures var t := PostEach(s, ids, wait);
      && t.lastPostedTrigger == (if ids == [] then s.lastPostedTrigger else ids[|ids| - 1])
      && t.tx.posted == s.tx.posted + ids
      && t.lastTrigger == s.lastTrigger
  {
    if ids == [] {
      assert s.tx.posted + [] == s.tx.posted;
    } else {
      var n := |ids| - 1;
      RisingInit(ids, s.lastPostedTrigger);
      RisingAccepted(s, ids[..n], wait);
      assert ids == ids[..n] + [ids[n]];
      assert s.tx.posted + ids == s.tx.posted + ids[..n] + [ids[n]];
    }
  }

  lemma {:induction false} RisingAboveMark(ids: seq<nat>, lo: nat, i: nat)
    requires Rising(ids, lo) && i < |ids|
    ensures lo < ids[i]
  {
    assert RisesAt(ids, i, lo);
    if i > 0 { RisingAboveMark(ids, lo, i - 1); }
  }

  /** What the batched call leaves: on a broken order, earlier requests without their commands. */
  function BatchState(s: State, ids: seq<nat>, n: nat, wait: bool): (t: State)
    requires n <= |ids|
  {
    if n == |ids| then PostEach(s, ids, wait) else PostEach(s, ids[..n], wait).(issued := s.issued)
  }

  lemma {:induction false} PostGrows(s: State, ids: seq<nat>, wait: bool)
    ensures |s.issued| <= |PostEach(s, ids, wait).issued|
    ensures PostEach(s, ids, wait).issued == s.issued <==> forall i :: 0 <= i < |ids| ==> ids[i] <= s.lastPostedTrigger
    ensures PostEach(s, ids, wait).issued == s.issued ==> PostEach(s, ids, wait) == s
    ensures PostEach(s, ids, wait).issued != s.issued ==> |s.issued| < |PostEach(s, ids, wait).issued|
  {
    if ids != [] {
      var n, init := |ids| - 1, ids[..|ids| - 1];
      PostGrows(s, init, wait);
      var t := PostEach(s, init, wait);
      assert |t.issued| <= |PostOne(t, ids[n], wait).issued|;
      if t.issued == s.issued {
        assert forall i :: 0 <= i < n ==> ids[i] == init[i];
      } else {
        var i :| 0 <= i < n && !(init[i] <= s.lastPostedTrigger);
        assert ids[i] == init[i];
      }
    }
  }

  /** A batch does what single calls do exactly when the order holds, or nothing at all is postable. */
  lemma BatchIff(s: State, ids: seq<nat>, n: nat, wait: bool)
    requires BreaksAt(ids, n, s.lastPostedTrigger)
    ensures BatchState(s, ids, n, wait) == PostEach(s, ids, wait) <==>
      Rising(ids, s.lastPostedTrigger) || forall i :: 0 <= i < |ids| ==> ids[i] <= s.lastPostedTrigger
  {
    PostGrows(s, ids, wait);
    if n < |ids| {
      var mark := s.lastPostedTrigger;
      assert !RisesAt(ids, n, mark);
      if n > 0 { assert RisesAt(ids, 0, mark); }
      PostGrows(s, ids[..n], wait);
    }
  }

  // ---- a batch in order is a stretch of a run -------------------------------------------------------------

  /** The batch rises above everything accepted so far, and its requests are prepared. */
  ghost predicate InLine(s: State, ids: seq<nat>) {
    && Rising(ids, s.lastPostedTrigger)
    && (ids != [] ==> Above(ids[0], Line(s.tx)))
    && forall i {:trigger ids[i]} :: 0 <= i < |ids| ==> ids[i] in s.prepared
  }

  lemma {:induction false} RisingBelow(ids: seq<nat>, lo: nat, i: nat, j: nat)
    requires Rising(ids, lo) && i < j < |ids|
    ensures ids[i] < ids[j]
  {
    assert RisesAt(ids, j, lo);
    if i < j - 1 { RisingBelow(ids, lo, i, j - 1); }
  }

  lemma RisingLast(ids: seq<nat>, lo: nat)
    requires Rising(ids, lo) && ids != []
    ensures Above(ids[|ids| - 1], ids[..|ids| - 1]) && ids[|ids| - 1] > lo
  {
    var n := |ids| - 1;
    RisingAboveMark(ids, lo, n);
    forall x | x in ids[..n] ensures x < ids[n] {
      var i :| 0 <= i < n && ids[..n][i] == x;
      RisingBelow(ids, lo, i, n);
    }
  }

  lemma PostOneAccepts(s: State, id: nat, wait: bool)
    requires s.lastPostedTrigger < id
    ensures var t := PostOne(s, id, wait);
      && Line(t.tx) == Line(s.tx) + [id] && t.prepared == s.prepared - {id}
      && t.tx.polled == s.tx.polled && t.rx == s.rx
  {
  }

  /** The ids join the line in order, and stop being merely prepared. */
  lemma {:induction false} PostEachLine(s: State, ids: seq<nat>, wait: bool)
    requires Rising(ids, s.lastPostedTrigger)
    ensures var t := PostEach(s, ids, wait);
      Line(t.tx) == Line(s.tx) + ids && forall x :: x in t.prepared <==> x in s.prepared && x !in ids
  {
    if ids == [] {
      assert Line(s.tx) + [] == Line(s.tx);
    } else {
      var n, init := |ids| - 1, ids[..|ids| - 1];
      RisingInit(ids, s.lastPostedTrigger);
      PostEachLine(s, init, wait);
      RisingAccepted(s, init, wait);
      RisingLast(ids, s.lastPostedTrigger);
      PostOneAccepts(PostEach(s, init, wait), ids[n], wait);
      assert ids == init + [ids[n]];
      assert Line(s.tx) + ids == Line(s.tx) + init + [ids[n]];
    }
  }

  lemma InLineInit(s: State, ids: seq<nat>)
    requires InLine(s, ids) && ids != []
    ensures InLine(s, ids[..|ids| - 1]) && Above(ids[|ids| - 1], Line(s.tx) + ids[..|ids| - 1])
    ensures ids[|ids| - 1] !in ids[..|ids| - 1]
  {
    RisingInit(ids, s.lastPostedTrigger);
    RisingLast(ids, s.lastPostedTrigger);
    if |ids| > 1 { assert ids[0] in ids[..|ids| - 1]; }
  }

  function PostOf(id: nat, wait: bool): (e: Step) { if wait then SendPost(id) else IsendPost(id) }

  function Posts(ids: seq<nat>, wait: bool): (calls: seq<Step>)
    ensures |calls| == |ids| && forall i :: 0 <= i < |ids| ==> calls[i] == PostOf(ids[i], wait)
  {
    if ids == [] then [] else Posts(ids[..|ids| - 1], wait) + [PostOf(ids[|ids| - 1], wait)]
  }

  /** The posts of such a batch, one after the other, are permitted calls of a run. */
  lemma {:induction false} PostEachBy(s: State, ids: seq<nat>, wait: bool)
    requires InLine(s, ids)
    ensures GoesBy(s, PostEach(s, ids, wait), Posts(ids, wait))
  {
    if ids == [] {
      ByHere(s);
    } else {
      var n, init := |ids| - 1, ids[..|ids| - 1];
      InLineInit(s, ids);
      PostEachBy(s, init, wait);
      PostEachLine(s, init, wait);
      ByOn(s, PostEach(s, init, wait), Posts(init, wait), PostOf(ids[n], wait));
    }
  }

  lemma PostEachGoes(s: State, ids: seq<nat>, wait: bool)
    requires InLine(s, ids)
    ensures Goes(s, PostEach(s, ids, wait))
  {
    PostEachBy(s, ids, wait);
    ByGoes(s, PostEach(s, ids, wait), Posts(ids, wait));
  }

  /** Every request waited for was accepted. */
  ghost predicate AllAccepted(s: State, reqs: seq<Awaited>) {
    forall i {:trigger reqs[i]} :: 0 <= i < |reqs| ==> reqs[i].id in Line(LaneOf(s, reqs[i].flow))
  }

  lemma WaitLines(s: State, f: Flow, id: nat)
    ensures var t := WaitCall(s, f, id); Line(t.tx) == Line(s.tx) && Line(t.rx) == Line(s.rx)
  {
  }

  function Awaits(reqs: seq<Awaited>): (calls: seq<Step>)
    ensures |calls| == |reqs| && forall i :: 0 <= i < |reqs| ==> calls[i] == WaitOnStream(reqs[i].flow, reqs[i].id)
  {
    if reqs == [] then [] else Awaits(reqs[..|reqs| - 1]) + [WaitOnStream(reqs[|reqs| - 1].flow, reqs[|reqs| - 1].id)]
  }

  /** The waits of a batch on accepted requests are permitted calls too. */
  lemma {:induction false} WaitEachBy(s: State, reqs: seq<Awaited>)
    requires AllAccepted(s, reqs)
    ensures GoesBy(s, WaitEach(s, reqs), Awaits(reqs))
    ensures Line(WaitEach(s, reqs).tx) == Line(s.tx) && Line(WaitEach(s, reqs).rx) == Line(s.rx)
  {
    if reqs == [] {
      ByHere(s);
    } else {
      var init, last := reqs[..|reqs| - 1], reqs[|reqs| - 1];
      WaitEachBy(s, init);
      WaitLines(WaitEach(s, init), last.flow, last.id);
      ByOn(s, WaitEach(s, init), Awaits(init), WaitOnStream(last.flow, last.id));
    }
  }

  lemma WaitEachGoes(s: State, reqs: seq<Awaited>)
    requires AllAccepted(s, reqs)
    ensures Goes(s, WaitEach(s, reqs))
    ensures Line(WaitEach(s, reqs).tx) == Line(s.tx) && Line(WaitEach(s, reqs).rx) == Line(s.rx)
  {
    WaitEachBy(s, reqs);
    ByGoes(s, WaitEach(s, reqs), Awaits(reqs));
  }

  // ---- what the waits of a batch promise --------------------------------------------------------------------

  lemma FencedFurther(u: State, f: Flow, id: nat, e: Step)
    requires Fenced(u, f, id, |u.issued|) && Enabled(u, e) && !e.IsendNow? && u.rx.posted == []
    ensures var t := Apply(u, e); Fenced(t, f, id, |t.issued|)
  {
    StepExtends(u, e, Apply(u, e));
    FencedExtends(u, Apply(u, e), f, id, |u.issued|);
  }

  lemma PostEachInv(s: State, ids: seq<nat>, wait: bool)
    requires Inv(s) && InLine(s, ids)
    ensures Inv(PostEach(s, ids, wait))
  {
    PostEachGoes(s, ids, wait);
    GoesKeeps(s, PostEach(s, ids, wait));
  }

  /** The last post of the batch puts its fence in place. */
  lemma LastPostFences(s: State, ids: seq<nat>)
    requires Inv(s) && InLine(s, ids) && ids != []
    ensures var t := PostEach(s, ids, true); Fenced(t, TX, ids[|ids| - 1], |t.issued|)
  {
    var n, init := |ids| - 1, ids[..|ids| - 1];
    InLineInit(s, ids);
    PostEachInv(s, init, true);
    PostEachLine(s, init, true);
    RisingAccepted(s, init, true);
    RisingLast(ids, s.lastPostedTrigger);
    CallFences(PostEach(s, init, true), SendPost(ids[n]), TX, ids[n]);
  }

  lemma {:induction false} PostEachRx(s: State, ids: seq<nat>, wait: bool)
    ensures PostEach(s, ids, wait).rx == s.rx
  {
    if ids != [] { PostEachRx(s, ids[..|ids| - 1], wait); }
  }

  /** After a batch with waits, everything queued later is behind the completion of each of its requests. */
  lemma {:induction false} PostEachFences(s: State, ids: seq<nat>, i: nat)
    requires Inv(s) && InLine(s, ids) && i < |ids|
    ensures var t := PostEach(s, ids, true); Fenced(t, TX, ids[i], |t.issued|)
  {
    var n, init := |ids| - 1, ids[..|ids| - 1];
    if i < n {
      InLineInit(s, ids);
      PostEachFences(s, init, i);
      PostEachRx(s, init, true);
      PostEachLine(s, init, true);
      FencedFurther(PostEach(s, init, true), TX, ids[i], SendPost(ids[n]));
    } else {
      LastPostFences(s, ids);
    }
  }

  lemma LastWaitFences(s: State, reqs: seq<Awaited>)
    requires Inv(s) && AllAccepted(s, reqs) && reqs != []
    ensures var t := WaitEach(s, reqs); Fenced(t, reqs[|reqs| - 1].flow, reqs[|reqs| - 1].id, |t.issued|)
  {
    var init, last := reqs[..|reqs| - 1], reqs[|reqs| - 1];
    WaitEachGoes(s, init);
    GoesKeeps(s, WaitEach(s, init));
    CallFences(WaitEach(s, init), WaitOnStream(last.flow, last.id), last.flow, last.id);
  }

  lemma {:induction false} WaitEachRx(s: State, reqs: seq<Awaited>)
    ensures WaitEach(s, reqs).rx.posted == s.rx.posted
  {
    if reqs != [] { WaitEachRx(s, reqs[..|reqs| - 1]); }
  }

  /** The same after the waits of a batch. */
  lemma {:induction false} WaitEachFences(s: State, reqs: seq<Awaited>, i: nat)
    requires Inv(s) && AllAccepted(s, reqs) && i < |reqs|
    ensures var t := WaitEach(s, reqs); Fenced(t, reqs[i].flow, reqs[i].id, |t.issued|)
  {
    var init, last := reqs[..|reqs| - 1], reqs[|reqs| - 1];
    if i < |reqs| - 1 {
      WaitEachFences(s, init, i);
      WaitEachRx(s, init);
      WaitEachGoes(s, init);
      FencedFurther(WaitEach(s, init), reqs[i].flow, reqs[i].id, WaitOnStream(last.flow, last.id));
    } else {
      LastWaitFences(s, reqs);
    }
  }

  // ---- what a broken batch leaves behind -----------------------------------------------------------------

  predicate Defers(e: Step) { e.IsendOnStream? || e.SendOnStream? || e.IsendPost? || e.SendPost? }

  /** The stream never wrote and will not write a trigger of x or above; x waits on the posted list. */
  ghost predicate Stranded(s: State, x: nat) {
    && s.lastTrigger < x
    && x in s.tx.posted
    && forall q {:trigger s.issued[q]} :: 0 <= q < |s.issued| ==> s.issued[q].Trigger? ==> s.issued[q].id < x
  }

  lemma TriggersBelow(s: State)
    requires Inv(s)
    ensures s.lastTrigger <= s.lastPostedTrigger
    ensures forall q {:trigger s.issued[q]} :: 0 <= q < |s.issued| ==>
      s.issued[q].Trigger? ==> s.issued[q].id <= s.lastPostedTrigger
  {
    forall q | 0 <= q < |s.issued| && s.issued[q].Trigger? ensures s.issued[q].id <= s.lastPostedTrigger {
      assert TriggerAt(s, q, s.issued[q].id);
    }
  }

  /** A broken batch strands every request before the break. */
  lemma BrokenBatchStrands(s: State, ids: seq<nat>, n: nat, i: nat, wait: bool)
    requires Inv(s) && BreaksAt(ids, n, s.lastPostedTrigger) && i < n < |ids|
    ensures Stranded(BatchState(s, ids, n, wait), ids[i])
  {
    var p := ids[..n];
    forall j | 0 <= j < n ensures RisesAt(p, j, s.lastPostedTrigger) { assert RisesAt(ids, j, s.lastPostedTrigger); }
    RisingAccepted(s, p, wait);
    RisingAboveMark(p, s.lastPostedTrigger, i);
    assert (s.tx.posted + p)[|s.tx.posted| + i] == ids[i];
    TriggersBelow(s);
  }

  lemma StrandedStep(s: State, e: Step, x: nat)
    requires Stranded(s, x) && Enabled(s, e) && !Defers(e)
    ensures Stranded(Apply(s, e), x)
  {
    match e
    case NicPost(ok) =>
      if ok { assert s.tx.posted == [s.tx.posted[0]] + s.tx.posted[1..]; }
    case _ =>
  }

  /** A stranded request stays on the posted list until another deferred send is accepted. */
  lemma {:induction false} StrandedStays(states: seq<State>, steps: seq<Step>, x: nat, k: nat)
    requires Trace(states, steps) && k < |states| && Stranded(states[0], x)
    requires forall i :: 0 <= i < |steps| ==> !Defers(steps[i])
    ensures x in states[k].tx.posted && Stranded(states[k], x)
  {
    if k > 0 {
      StrandedStays(states, steps, x, k - 1);
      StrandedStep(states[k - 1], steps[k - 1], x);
    }
  }

  // ---- and its waits ----------------------------------------------------------------------------------------

  /** t is s with more requests at the tail of the posted list, some of them flagged. */
  ghost predicate Behind(s: State, t: State, tail: seq<nat>, flags: set<nat>) {
    && t == s.(lastPostedTrigger := t.lastPostedTrigger, prepared := t.prepared,
               tx := s.tx.(posted := s.tx.posted + tail, triggered := s.tx.triggered + flags,
                           lastPostedTracked := t.tx.lastPostedTracked))
    && forall x :: x in flags ==> x !in Line(s.tx)
  }

  /** The engine does to t what it does to s. */
  lemma BehindStep(s: State, t: State, tail: seq<nat>, flags: set<nat>, e: Step)
    requires Behind(s, t, tail, flags) && Enabled(s, e) && EngineStep(e)
    ensures Enabled(t, e) && Behind(Apply(s, e), Apply(t, e), tail, flags)
  {
    match e
    case StreamStep =>
    case NicPost(ok) => BehindPost(s, t, tail, flags, ok);
    case NicComplete(f) => BehindComplete(s, t, tail, flags, f);
    case Poll(f) => BehindPoll(s, t, tail, flags, f);
  }

  lemma BehindPost(s: State, t: State, tail: seq<nat>, flags: set<nat>, ok: bool)
    requires Behind(s, t, tail, flags) && Enabled(s, NicPost(ok))
    ensures Enabled(t, NicPost(ok)) && Behind(Apply(s, NicPost(ok)), Apply(t, NicPost(ok)), tail, flags)
  {
    EngineExtends(s, NicPost(ok));
    assert (s.tx.posted + tail)[0] == s.tx.posted[0];
    assert (s.tx.posted + tail)[1..] == s.tx.posted[1..] + tail;
  }

  lemma BehindComplete(s: State, t: State, tail: seq<nat>, flags: set<nat>, f: Flow)
    requires Behind(s, t, tail, flags) && Enabled(s, NicComplete(f))
    ensures Enabled(t, NicComplete(f)) && Behind(Apply(s, NicComplete(f)), Apply(t, NicComplete(f)), tail, flags)
  {
    EngineExtends(s, NicComplete(f));
  }

  lemma BehindPoll(s: State, t: State, tail: seq<nat>, flags: set<nat>, f: Flow)
    requires Behind(s, t, tail, flags) && Enabled(s, Poll(f))
    ensures Enabled(t, Poll(f)) && Behind(Apply(s, Poll(f)), Apply(t, Poll(f)), tail, flags)
  {
    EngineExtends(s, Poll(f));
    if f.TX? { assert s.tx.cq[0] in Line(s.tx); }
  }

  lemma {:induction false} BehindAlong(states: seq<State>, steps: seq<Step>, k: nat, t: State, tail: seq<nat>, flags: set<nat>)
    returns (u: State)
    requires Disciplined(states, steps) && k <= |steps| && Behind(states[0], t, tail, flags)
    requires forall i :: 0 <= i < |steps| ==> EngineStep(steps[i])
    ensures Leads(t, u) && Behind(states[k], u, tail, flags)
  {
    if k == 0 {
      LeadsHere(t);
      u := t;
    } else {
      var v := BehindAlong(states, steps, k - 1, t, tail, flags);
      BehindStep(states[k - 1], v, tail, flags, steps[k - 1]);
      LeadsOn(t, v, steps[k - 1]);
      u := Apply(v, steps[k - 1]);
    }
  }

  /** Requests accepted without their commands, whatever waits were asked for. */
  lemma {:induction false} PostEachBehind(s: State, ids: seq<nat>) returns (flags: set<nat>)
    requires Rising(ids, s.lastPostedTrigger) && forall x :: x in ids ==> x !in Line(s.tx)
    ensures var t := PostEach(s, ids, true).(issued := s.issued);
      Behind(s, t, ids, flags) && forall x :: x in ids ==> x <= t.tx.lastPostedTracked
  {
    if ids == [] {
      flags := {};
      assert s.tx.posted + [] == s.tx.posted;
    } else {
      var n, init := |ids| - 1, ids[..|ids| - 1];
      RisingInit(ids, s.lastPostedTrigger);
      RisingLast(ids, s.lastPostedTrigger);
      RisingAccepted(s, init, true);
      assert ids == init + [ids[n]];
      var more := PostEachBehind(s, init);
      flags := if PostEach(s, init, true).tx.lastPostedTracked < ids[n] then more + {ids[n]} else more;
      assert s.tx.posted + ids == s.tx.posted + init + [ids[n]];
    }
  }

  /**
    A broken batch with waits raises the high-water mark of stream waits, although no wait reached the
    stream. A later mp_wait_on_stream on one of its accepted requests is therefore dropped, and the
    stream can run past everything queued while that request is not even with the NIC.
   */
  lemma BrokenBatchDropsWaits(s: State, ids: seq<nat>, n: nat, i: nat) returns (u: State)
    requires Inv(s) && BreaksAt(ids, n, s.lastPostedTrigger) && i < n < |ids|
    requires forall j {:trigger ids[j]} :: 0 <= j < n ==> ids[j] in s.prepared
    ensures var t := BatchState(s, ids, n, true);
      && ids[i] in Line(t.tx) && WaitCall(t, TX, ids[i]) == t
      && Leads(t, u) && u.executed == |u.issued| && ids[i] !in Handed(u.tx)
  {
    var p, t := ids[..n], BatchState(s, ids, n, true);
    forall j | 0 <= j < n ensures RisesAt(p, j, s.lastPostedTrigger) { assert RisesAt(ids, j, s.lastPostedTrigger); }
    forall x | x in p ensures x in s.prepared {
      var j :| 0 <= j < n && p[j] == x;
      assert ids[j] == x;
    }
    var flags := PostEachBehind(s, p);
    assert p[i] in p && (s.tx.posted + p)[|s.tx.posted| + i] == p[i];
    var states, steps := Drain(s);
    u := BehindAlong(states, steps, |steps|, t, p, flags);
    DrainedLine(states, steps, |steps|, ids[i]);
  }
}
