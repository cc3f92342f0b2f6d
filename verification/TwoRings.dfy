/**
  sr_exchange of the kernel-stream ping-pong: a ring of steps * batches send requests and a ring of
  receive requests deeper by the number of preposted receives.
 */
module TwoRings {
  import opened PingPong
  import opened Ring

  function Min(a: nat, b: nat): (m: nat) { if a < b then a else b }

  /** 0, 1, ..., n - 1. */
  function Upto(n: nat): (q: seq<int>) { seq(n, i => i) }

  lemma UptoNext(n: nat)
    ensures Upto(n) + [n] == Upto(n + 1)
  {
  }

  /** The n oldest requests of a ring are waited for, the index going round. */
  method WaitOldest(ring: Slots, idx: nat, n: nat, waited: seq<int>) returns (at: nat, log: seq<int>)
    requires ring.Valid() && idx == ring.first % ring.slots.Length && n <= ring.next - ring.first
    requires waited == Upto(ring.first)
    modifies ring, ring.slots
    ensures ring.Valid() && ring.first == old(ring.first) + n && ring.next == old(ring.next)
    ensures at == ring.first % ring.slots.Length && log == Upto(ring.first)
  {
    at, log := idx, waited;
    var i := 0;
    while i < n
      invariant i <= n && ring.Valid()
      invariant ring.first == old(ring.first) + i && ring.next == old(ring.next)
      invariant at == ring.first % ring.slots.Length && log == Upto(ring.first)
    {
      UptoNext(ring.first);
      NextIndex(ring.first, ring.slots.Length);
      var t := ring.Wait(at);
      log := log + [t];
      at := (at + 1) % ring.slots.Length;
      i := i + 1;
    }
  }

  /** Request t is posted, the index going round. */
  method PostNext(ring: Slots, idx: nat, t: nat) returns (at: nat)
    requires ring.Valid() && ring.next == t && t - ring.first < ring.slots.Length && idx == t % ring.slots.Length
    modifies ring, ring.slots
    ensures ring.Valid() && ring.first == old(ring.first) && ring.next == t + 1
    ensures at == ring.next % ring.slots.Length
  {
    ring.Post(idx, t);
    NextIndex(t, ring.slots.Length);
    at := (idx + 1) % ring.slots.Length;
  }

  /** The preposted receives. */
  method Prepost(rreq: Slots, depth: nat) returns (rreqIdx: nat)
    requires rreq.Valid() && rreq.first == rreq.next == 0 && depth <= rreq.slots.Length
    modifies rreq, rreq.slots
    ensures rreq.Valid() && rreq.first == 0 && rreq.next == depth && rreqIdx == depth % rreq.slots.Length
  {
    rreqIdx := 0;
    var j := 0;
    while j < depth
      invariant j <= depth && rreq.Valid() && rreq.first == 0 && rreq.next == j
      invariant rreqIdx == j % rreq.slots.Length
    {
      rreqIdx := PostNext(rreq, rreqIdx, j);
      j := j + 1;
    }
  }

  /** The variables of sr_exchange. */
  class Exchange {
    const steps: nat           // steps_per_batch
    const reqMax: nat          // req_max_inflight
    const depth: nat           // prepost_depth
    const iters: nat
    const useAsync: bool
    const rank: int
    const sreq: Slots
    const rreq: Slots          // rreq_max_inflight slots

    var rreqIdx: nat
    var completeReqIdx: nat
    var completeRreqIdx: nat
    var reqInflight: nat
    var rreqInflight: nat
    var sendsWaited: seq<int>  // mp_wait on sends
    var recvsWaited: seq<int>  // mp_wait on receives
    var streamWaits: seq<int>  // mp_wait_on_stream on receives
    var log: seq<Event>        // receives used and sends posted, in order
    ghost var mostSends: nat   // most requests outstanding at any time
    ghost var mostRecvs: nat
    ghost var full: bool       // the send ring was full at least once

    ghost predicate Sized()
      reads this
    {
      && sreq != rreq && sreq.slots != rreq.slots
      && 0 < steps <= reqMax == sreq.slots.Length
      && depth <= iters && (iters > 0 ==> depth > 0) && rreq.slots.Length == reqMax + depth
    }

    /** n sends have been posted. */
    ghost predicate OkSends(n: nat)
      reads this, sreq, sreq.slots
    {
      && sreq.Valid() && sreq.next == n
      && reqInflight == n - sreq.first && completeReqIdx == sreq.first % sreq.slots.Length
      && sendsWaited == Upto(sreq.first)
      && mostSends == (if full then reqMax else n)
      && (if full then reqMax <= iters else sreq.first == 0)
    }

    /** m receives have been posted, and the first n used by the stream, or waited for by the host. */
    ghost predicate OkRecvs(n: nat, m: nat)
      reads this, rreq, rreq.slots
    {
      && rreq.Valid() && rreq.next == m && n <= m <= iters
      && rreqIdx == m % rreq.slots.Length
      && recvsWaited == Upto(rreq.first)
      && streamWaits == (if useAsync then Upto(n) else [])
      && (useAsync ==> rreqInflight == m - rreq.first && completeRreqIdx == rreq.first % rreq.slots.Length)
      && mostRecvs == (if !useAsync then depth else if full then Min(iters, reqMax + depth) else m)
    }

    /** Both; in async mode sends and receives are waited for batch by batch. */
    ghost predicate Ok(n: nat, m: nat)
      reads this, sreq, rreq, sreq.slots, rreq.slots
    {
      && Sized() && OkSends(n) && OkRecvs(n, m)
      && rreq.first == (if useAsync then sreq.first else n)
      && log == Turns(rank, n)
    }

    constructor (steps: nat, batches: nat, iters: nat, depth: nat, useAsync: bool, rank: int)
      requires steps > 0 && batches > 0 && depth <= iters && (iters > 0 ==> depth > 0)
      ensures Ok(0, depth) && this.depth == depth && this.steps == steps && reqMax == steps * batches && this.iters == iters
      ensures this.useAsync == useAsync && this.rank == rank
      ensures fresh(sreq) && fresh(rreq) && fresh(sreq.slots) && fresh(rreq.slots)
    {
      Multiple(batches, steps);
      var sends := new Slots(steps * batches);
      var recvs := new Slots(steps * batches + depth);
      this.steps, this.reqMax, this.depth := steps, steps * batches, depth;
      this.iters, this.useAsync, this.rank := iters, useAsync, rank;
      this.sreq, this.rreq := sends, recvs;
      completeReqIdx, completeRreqIdx, reqInflight := 0, 0, 0;
      sendsWaited, recvsWaited, streamWaits, log := [], [], [], [];
      mostSends, full := 0, false;
      // the preposted receives
      var idx := Prepost(recvs, depth);
      rreqIdx, rreqInflight, mostRecvs := idx, depth, depth;
    }

    /** Send j is posted. */
    method SendOne(j: nat)
      requires Sized() && OkSends(j) && j - sreq.first < reqMax && (full || j < reqMax)
      modifies this`reqInflight, this`mostSends, this`log, sreq, sreq.slots
      ensures log == old(log) + [Sent(j)]
      ensures OkSends(j + 1) && reqInflight == old(reqInflight) + 1 && sreq.first == old(sreq.first)
    {
      sreq.Post(j % reqMax, j);
      log := log + [Sent(j)];
      reqInflight := reqInflight + 1;
      if reqInflight > mostSends { mostSends := reqInflight; }
    }

    /** Receive j is waited for, by the stream or by the host. */
    method ReceiveOne(j: nat, ghost m: nat)
      requires Sized() && OkRecvs(j, m) && j < m && (if useAsync then rreq.first <= j else rreq.first == j)
      modifies this`streamWaits, this`recvsWaited, this`log, rreq, rreq.slots
      ensures log == old(log) + [Received(j)]
      ensures OkRecvs(j + 1, m) && rreq.first == if useAsync then old(rreq.first) else j + 1
    {
      UptoNext(j);
      if useAsync {
        var t := rreq.Peek(j % rreq.slots.Length, j);
        streamWaits, log := streamWaits + [t], log + [Received(t)];
      } else {
        var t := rreq.Wait(j % rreq.slots.Length);
        recvsWaited, log := recvsWaited + [t], log + [Received(t)];
      }
    }

    /** Rank 0 receives before it sends, the other rank sends first. */
    method ReceiveAndSend(j: nat, ghost m: nat)
      requires Ok(j, m) && j < m && j - sreq.first < reqMax && (full || j < reqMax)
      modifies this`reqInflight, this`mostSends, this`streamWaits, this`recvsWaited, this`log
      modifies sreq, sreq.slots, rreq, rreq.slots
      ensures Ok(j + 1, m) && reqInflight == old(reqInflight) + 1 && sreq.first == old(sreq.first)
      ensures log == old(log) + if rank == 0 then [Received(j), Sent(j)] else [Sent(j), Received(j)]
    {
      if rank == 0 {
        ReceiveOne(j, m);
        SendOne(j);
      } else {
        SendOne(j);
        ReceiveOne(j, m);
      }
      assert log == old(log) + if rank == 0 then [Received(j), Sent(j)] else [Sent(j), Received(j)];
    }

    /** The receive of an iteration to come is posted. */
    method PostAhead(j: nat)
      requires Sized() && j < iters && OkRecvs(j + 1, Min(iters, j + depth))
      requires j + depth < rreq.first + rreq.slots.Length
      requires if !useAsync then rreq.first == j + 1 else full || rreq.first == 0
      modifies this`rreqIdx, this`rreqInflight, this`mostRecvs, rreq, rreq.slots
      ensures OkRecvs(j + 1, Min(iters, j + 1 + depth)) && rreq.first == old(rreq.first)
    {
      if j + depth < iters {
        rreqIdx := PostNext(rreq, rreqIdx, j + depth);
        rreqInflight := rreqInflight + 1;
        if rreq.next - rreq.first > mostRecvs { mostRecvs := rreq.next - rreq.first; }
      }
    }

    /** n receives, in async mode, and n sends are waited for, the oldest first. */
    method WaitBoth(recvs: nat, sends: nat, ghost n: nat, ghost m: nat)
      requires Ok(n, m) && sends <= reqInflight && (useAsync ==> recvs <= rreqInflight)
      modifies this, sreq, sreq.slots, rreq, rreq.slots
      ensures Sized() && sreq.Valid() && rreq.Valid() && sreq.next == n && rreq.next == m
      ensures sreq.first == old(sreq.first) + sends && reqInflight == old(reqInflight) - sends
      ensures rreq.first == old(rreq.first) + (if useAsync then recvs else 0)
      ensures useAsync ==> rreqInflight == old(rreqInflight) - recvs
      ensures completeReqIdx == sreq.first % reqMax
      ensures useAsync ==> completeRreqIdx == rreq.first % rreq.slots.Length
      ensures sendsWaited == Upto(sreq.first) && recvsWaited == Upto(rreq.first)
      ensures streamWaits == old(streamWaits) && rreqIdx == old(rreqIdx) && log == old(log)
      ensures mostSends == old(mostSends) && mostRecvs == old(mostRecvs) && full == old(full)
    {
      if useAsync {
        completeRreqIdx, recvsWaited := WaitOldest(rreq, completeRreqIdx, recvs, recvsWaited);
        rreqInflight := rreqInflight - recvs;
      }
      completeReqIdx, sendsWaited := WaitOldest(sreq, completeReqIdx, sends, sendsWaited);
      reqInflight := reqInflight - sends;
    }

    /** When the send ring is full, the oldest batch is waited for. */
    method Synchronize(n: nat)
      requires n <= iters && Ok(n, Min(iters, n + depth)) && reqInflight <= reqMax && (full || n <= reqMax)
      modifies this, sreq, sreq.slots, rreq, rreq.slots
      ensures Ok(n, Min(iters, n + depth)) && reqInflight < reqMax && (full || n < reqMax)
    {
      if reqInflight == reqMax {
        full := true;
        WaitBoth(steps, steps, n, Min(iters, n + depth));
      }
    }

    /** The body of the loop, but for draining after the last iteration. */
    method Iterate(j: nat)
      requires j < iters && Ok(j, Min(iters, j + depth)) && reqInflight < reqMax && (full || j < reqMax)
      modifies this, sreq, sreq.slots, rreq, rreq.slots
      ensures Ok(j + 1, Min(iters, j + 1 + depth)) && reqInflight < reqMax && (full || j + 1 < reqMax)
    {
      ReceiveAndSend(j, Min(iters, j + depth));
      PostAhead(j);
      Synchronize(j + 1);
    }

    /** Everything posted was waited for once, in order, and the rings were filled as far as said. */
    ghost predicate Drained()
      reads this, sreq, rreq, sreq.slots, rreq.slots
    {
      && Sized() && sreq.Valid() && rreq.Valid()
      && sreq.first == sreq.next == rreq.first == rreq.next == iters
      && sendsWaited == Upto(iters) && recvsWaited == Upto(iters)
      && streamWaits == (if useAsync then Upto(iters) else []) && log == Turns(rank, iters)
      && mostSends == Min(iters, reqMax)
      && mostRecvs == (if useAsync then Min(iters, reqMax + depth) else depth)
    }
  }

  /**
    The whole exchange, for any number of steps, batches and iterations, and any depth of preposting up
    to the number of iterations. A slot is free whenever it is posted to; every send and every receive
    is waited for once, in order; and the rings fill up exactly, so neither could be smaller.
   */
  method SrExchange(steps: nat, batches: nat, iters: nat, depth: nat, useAsync: bool, rank: int) returns (x: Exchange)
    requires steps > 0 && batches > 0 && depth <= iters && (iters > 0 ==> depth > 0)
    ensures x.steps == steps && x.reqMax == steps * batches && x.iters == iters && x.depth == depth
    ensures x.useAsync == useAsync && x.rank == rank
    ensures x.Drained()
    ensures |x.log| == 2 * iters
    ensures forall k {:trigger Received(k)} {:trigger Sent(k)} :: 0 <= k < iters ==>
      if rank == 0 then x.log[2 * k] == Received(k) && x.log[2 * k + 1] == Sent(k)
      else x.log[2 * k] == Sent(k) && x.log[2 * k + 1] == Received(k)
  {
    x := new Exchange(steps, batches, iters, depth, useAsync, rank);
    var j := 0;
    while j < iters
      invariant j <= iters && fresh(x) && fresh(x.sreq) && fresh(x.rreq) && fresh(x.sreq.slots) && fresh(x.rreq.slots)
      invariant j == iters && iters > 0 ==> x.Drained()
      invariant j < iters || iters == 0 ==>
        x.Ok(j, Min(iters, j + x.depth)) && x.reqInflight < x.reqMax && (x.full || j < x.reqMax)
    {
      x.Iterate(j);
      if j == iters - 1 {
        x.WaitBoth(x.rreqInflight, x.reqInflight, iters, iters);
      }
      j := j + 1;
    }
    TurnsAre(rank, iters);
  }

  /** The benchmark preposts one batch, or all iterations when they are fewer. */
  method Benchmark(steps: nat, batches: nat, iters: nat, useAsync: bool, rank: int) returns (x: Exchange)
    requires steps > 0 && batches > 0
    ensures x.steps == steps && x.reqMax == steps * batches && x.iters == iters && x.depth == Min(steps, iters)
    ensures x.useAsync == useAsync && x.rank == rank && x.Drained()
    ensures Alternates(x.log, rank, iters)
  {
    TurnsAlternate(rank, iters);
    x := SrExchange(steps, batches, iters, if steps < iters then steps else iters, useAsync, rank);
  }
}
