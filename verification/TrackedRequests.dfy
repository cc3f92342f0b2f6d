/** The table of tracked requests behind comm_progress and comm_flush. */
module TrackedRequests {
  import opened Requests
  import opened EventSync
  import opened Ledger
  import opened ProgressSpec
  import opened RoundSpec
  import opened RequestPool
  import opened HostWait
  import C = Client

  const MAX_REQS := 16384

  ghost predicate SomeStale(reqs: seq<MpRequest>)
    reads (set r | r in reqs)`kind
  {
    exists i :: 0 <= i < |reqs| && Stale(reqs[i])
  }

  /** No unsignalled put was tracked. */
  ghost predicate NoPuts(reqs: seq<MpRequest>)
    reads (set r | r in reqs)`kind, (set r | r in reqs)`nowait
  {
    forall i {:trigger reqs[i]} :: 0 <= i < |reqs| ==> Stale(reqs[i]) || CanBeWaited(reqs[i])
  }

  ghost predicate AllZero(q: seq<int>) { forall i :: 0 <= i < |q| ==> q[i] == 0 }

  /** A released record keeps the wait from beginning; without unsignalled puts it hits the assertion on its type. */
  lemma StaleStops(reqs: seq<MpRequest>, postWait: seq<int>)
    requires |postWait| == |reqs|
    ensures SomeStale(reqs) ==> Verdict(reqs, postWait, |reqs|) != SUCCESS
    ensures SomeStale(reqs) && NoPuts(reqs) && AllZero(postWait) ==> Verdict(reqs, postWait, |reqs|) == Aborted
    ensures AllWaitable(reqs) ==> !Verdict(reqs, postWait, |reqs|).Aborted?
  {
    VerdictIff(reqs, postWait, |reqs|);
    if SomeStale(reqs) {
      var i :| 0 <= i < |reqs| && Stale(reqs[i]);
      assert !CanBeWaited(reqs[i]) && !Passes(reqs, postWait, i);
    }
  }

  /** mp_wait_all on the table, in the terms of the flush. */
  method WaitForTable(c: C.Client, pool: Pool, reqs: seq<MpRequest>, ghost keys: seq<Key>, postWait: seq<int>, rounds: seq<Round>)
    returns (out: Outcome, ghost complete: bool, ghost marks: seq<State>)
    requires C.Ready(c) && pool.Valid() && c.Owns(pool) && |postWait| == |reqs|
    requires AllReturned(c.book.req, reqs) && KeysOf(keys, reqs)
    modifies c`lastDoneId, c`executed, c`lastTrigger, c`tx, c`rx, c`abs, c`book, c.posted, pool
    modifies c.book.req.Values`next, c.book.req.Values`prev, c.book.req.Values`status, c.book.req.Values`kind
    ensures C.Ready(c) && pool.Valid() && c.Owns(pool) && Leads(old(c.abs), c.abs)
    ensures Ended(marks, keys, rounds, old(Verdict(reqs, postWait, |reqs|)), if complete then SUCCESS else out)
    ensures marks[0] == old(c.abs) && marks[|marks| - 1] == c.abs
    ensures old(Verdict(reqs, postWait, |reqs|)) == SUCCESS && old(Ripe(c.abs, keys) && Enough(c.abs, rounds)) ==> complete
    ensures complete ==> out == if Distinct(reqs) then SUCCESS else FAILURE
    ensures complete ==> AllPolled(c.abs, keys, |keys|) && Freed(pool, reqs, old(pool.free), old(pool.live))
    ensures !complete ==> out != SUCCESS
    ensures !complete ==> pool.free == old(pool.free) && pool.live == old(pool.live) && c.book.req == old(c.book).req
    ensures old(SomeStale(reqs)) ==> !complete
    ensures old(AllWaitable(reqs)) ==> !out.Aborted?
    ensures old(SomeStale(reqs) && NoPuts(reqs)) && AllZero(postWait) ==> out.Aborted?
  {
    StaleStops(reqs, postWait);
    out, complete, marks := WaitAll(c, pool, reqs, keys, postWait, rounds);
  }

  class Table {
    var reqs: seq<MpRequest>   // the first n_reqs entries of the table

    constructor ()
      ensures reqs == []
    {
      reqs := [];
    }

    /** comm_track_request */
    method Track(req: MpRequest)
      requires |reqs| < MAX_REQS
      modifies this
      ensures reqs == old(reqs) + [req]
    {
      reqs := reqs + [req];
    }

    /** comm_progress: the table is looked at, not changed. */
    method Progress(c: C.Client, ghost keys: seq<Key>, rounds: seq<Round>)
      returns (ret: int, ghost failed: bool, ghost marks: seq<State>)
      requires C.Ready(c) && |rounds| == |reqs| < MAX_REQS && AllHandles(c.book.req, reqs) && KeysOf(keys, reqs)
      modifies c`lastDoneId, c`executed, c`lastTrigger, c`tx, c`rx, c`abs, c`book, c.posted
      modifies c.book.req.Values`next, c.book.req.Values`prev, c.book.req.Values`status
      ensures C.Ready(c) && Leads(old(c.abs), c.abs) && c.book.req == old(c.book).req && reqs == old(reqs)
      ensures ProgressedAll(marks, keys, rounds, ret, failed) && marks[0] == old(c.abs) && marks[|marks| - 1] == c.abs
      ensures !failed ==> CountedTo(old(c.abs), c.abs, keys, |keys|, ret)
    {
      ret, failed, marks := ProgressAll(c, reqs, keys, rounds);
    }

    /** The table is emptied; client and pool are not concerned. */
    method Forget(ghost c: C.Client, ghost pool: Pool)
      requires C.Ready(c) && pool.Valid() && c.Owns(pool)
      modifies this
      ensures reqs == [] && C.Ready(c) && pool.Valid() && c.Owns(pool)
    {
      reqs := [];
    }

    /**
      comm_flush. If the wait came to its releasing loop, everything tracked completed and is back in the
      pool, and only a request tracked twice makes it fail. Otherwise it fails with no record released. A
      tracked record that was released before ends the program at the assertion on its type; with none
      and no unsignalled put, that cannot happen. The table has forgotten them all in any case.
     */
    method Flush(c: C.Client, pool: Pool, ghost keys: seq<Key>, postWait: seq<int>, rounds: seq<Round>)
      returns (out: Outcome, ghost complete: bool, ghost marks: seq<State>)
      requires C.Ready(c) && pool.Valid() && c.Owns(pool) && |postWait| == |reqs| < MAX_REQS
      requires AllReturned(c.book.req, reqs) && KeysOf(keys, reqs)
      modifies this, c`lastDoneId, c`executed, c`lastTrigger, c`tx, c`rx, c`abs, c`book, c.posted, pool
      modifies c.book.req.Values`next, c.book.req.Values`prev, c.book.req.Values`status, c.book.req.Values`kind
      ensures C.Ready(c) && pool.Valid() && c.Owns(pool) && Leads(old(c.abs), c.abs)
      ensures out.Finished? ==> reqs == []
      ensures Ended(marks, keys, rounds, old(Verdict(reqs, postWait, |reqs|)), if complete then SUCCESS else out)
      ensures marks[0] == old(c.abs) && marks[|marks| - 1] == c.abs
      ensures old(Verdict(reqs, postWait, |reqs|)) == SUCCESS && old(Ripe(c.abs, keys) && Enough(c.abs, rounds)) ==> complete
      ensures complete ==> out == if Distinct(old(reqs)) then SUCCESS else FAILURE
      ensures complete ==> AllPolled(c.abs, keys, |keys|) && Freed(pool, old(reqs), old(pool.free), old(pool.live))
      ensures !complete ==> out != SUCCESS
      ensures !complete ==> pool.free == old(pool.free) && pool.live == old(pool.live) && c.book.req == old(c.book).req
      ensures old(SomeStale(reqs)) ==> !complete
      ensures old(AllWaitable(reqs)) ==> !out.Aborted?
      ensures old(SomeStale(reqs) && NoPuts(reqs)) && AllZero(postWait) ==> out.Aborted?
    {
      if |reqs| == 0 {
        LeadsHere(c.abs);
        NoneFreed(pool);
        return SUCCESS, true, [c.abs];
      }
      out, complete, marks := WaitForTable(c, pool, reqs, keys, postWait, rounds);
      if out.Finished? {
        Forget(c, pool);
      }
    }

    /** comm_wait: the request is waited for and released, and stays in the table. */
    method WaitOne(c: C.Client, pool: Pool, req: MpRequest, ghost key: Key, postWait: int, rounds: seq<Round>)
      returns (out: Outcome, ghost marks: seq<State>)
      requires C.Ready(c) && pool.Valid() && c.Owns(pool)
      requires AllReturned(c.book.req, [req]) && KeysOf([key], [req])
      modifies c`lastDoneId, c`executed, c`lastTrigger, c`tx, c`rx, c`abs, c`book, c.posted, pool
      modifies c.book.req.Values`next, c.book.req.Values`prev, c.book.req.Values`status, c.book.req.Values`kind
      ensures C.Ready(c) && pool.Valid() && c.Owns(pool) && Leads(old(c.abs), c.abs) && reqs == old(reqs)
      ensures Ended(marks, [key], rounds, old(Verdict([req], [postWait], 1)), out)
      ensures marks[0] == old(c.abs) && marks[|marks| - 1] == c.abs
      ensures old(Verdict([req], [postWait], 1)) == SUCCESS && old(Ripe(c.abs, [key]) && Enough(c.abs, rounds)) ==> out == SUCCESS
      ensures out == SUCCESS ==> Polled(c.abs, key) && Stale(req) && pool.free == [req] + old(pool.free)
      ensures out != SUCCESS ==> pool.free == old(pool.free)
    {
      ghost var complete;
      out, complete, marks := WaitAll(c, pool, [req], [key], [postWait], rounds);
      if out == SUCCESS {
        One(req);
        assert Polled(c.abs, [key][0]);
      }
    }
  }

  lemma NoneFreed(pool: Pool)
    ensures Freed(pool, [], pool.free, pool.live)
  {
    assert Reversed(Firsts<MpRequest>([])) + pool.free == pool.free;
    assert pool.live - Members([]) == pool.live;
  }

  lemma One(r: MpRequest)
    ensures Reversed(Firsts([r])) == [r]
  {
    assert [r][..0] == [];
    assert Firsts([r]) == [r];
  }
}
