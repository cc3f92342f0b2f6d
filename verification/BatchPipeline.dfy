/**
  sr_exchange of the latency benchmarks: batches of requests go round two rings, with up to D batches
  of sends in flight and one receive batch posted ahead, also with kernel-initiated sends.
 */
module BatchPipeline {
  import opened PingPong
  import opened Ring
  import opened TwoRings

  /** Who receives and sends: the host, the stream (which may also wait for the sends), or a kernel. */
  datatype Mode = Sync | Async(unlock: bool) | KernelInitiated

  /** batch_to_rreq_idx and batch_to_sreq_idx: the first slot of a batch in a ring of n batches. */
  function BatchToIdx(batch: nat, n: nat, steps: nat): (idx: nat)
    requires n > 0
  {
    (batch % n) * steps
  }

  /** Slot by slot, a ring of batches is a ring of requests numbered through. */
  lemma BatchSlot(batch: nat, j: nat, n: nat, steps: nat)
    requires n > 0 && j < steps
    ensures n * steps > 0 && BatchToIdx(batch, n, steps) + j == (steps * batch + j) % (n * steps)
  {
    var q, m := batch / n, batch % n;
    assert batch == q * n + m;
    assert n * steps >= steps by { Multiple(n, steps); }
    assert m * steps + j < n * steps by { Below(m, n, steps); }
    assert steps * batch == q * (n * steps) + m * steps by {
      assert steps * batch == steps * (q * n) + steps * m;
      assert steps * (q * n) == q * (n * steps);
    }
    DivIs(steps * batch + j, q, m * steps + j, n * steps);
  }

  lemma Below(a: nat, b: nat, steps: nat)
    requires a < b
    ensures a * steps + steps <= b * steps && steps * a + steps <= steps * b
  {
    if steps > 0 { Multiple(b - a, steps); }
    assert (b - a) * steps == b * steps - a * steps;
    assert steps * a == a * steps && steps * b == b * steps;
  }

  /** The ring holds the batches from first to next - 1. */
  ghost predicate InBatches(ring: Slots, steps: nat, first: int, next: int)
    reads ring, ring.slots
  {
    ring.Valid() && first <= next && ring.first == steps * first && ring.next == steps * next
  }

  /** A batch of requests is posted into free slots. */
  method PostBatch(ring: Slots, batch: nat, n: nat, steps: nat, ghost first: nat)
    requires steps > 0 && n > 0 && ring.slots.Length == n * steps
    requires InBatches(ring, steps, first, batch) && batch < first + n
    modifies ring, ring.slots
    ensures InBatches(ring, steps, first, batch + 1)
  {
    var idx := BatchToIdx(batch, n, steps);
    Room(first, batch, n, steps);
    var j := 0;
    while j < steps
      invariant j <= steps && ring.Valid() && ring.first == steps * first && ring.next == steps * batch + j
    {
      BatchSlot(batch, j, n, steps);
      ring.Post(idx + j, steps * batch + j);
      j := j + 1;
    }
    assert steps * (batch + 1) == steps * batch + steps;
  }

  lemma Room(first: nat, batch: nat, n: nat, steps: nat)
    requires first <= batch < first + n
    ensures steps * batch + steps <= steps * first + n * steps
  {
    Below(batch, first + n, steps);
    assert steps * (first + n) == steps * first + n * steps;
  }

  /** Every request of the oldest batch is waited for. */
  method WaitBatch(ring: Slots, batch: nat, n: nat, steps: nat, ghost next: nat, waited: seq<int>) returns (log: seq<int>)
    requires steps > 0 && n > 0 && ring.slots.Length == n * steps
    requires InBatches(ring, steps, batch, next) && batch < next && waited == Upto(steps * batch)
    modifies ring, ring.slots
    ensures InBatches(ring, steps, batch + 1, next) && log == Upto(steps * (batch + 1))
  {
    var idx := BatchToIdx(batch, n, steps);
    Below(batch, next, steps);
    log := waited;
    var j := 0;
    while j < steps
      invariant j <= steps && ring.Valid() && ring.first == steps * batch + j && ring.next == steps * next
      invariant log == Upto(steps * batch + j)
    {
      BatchSlot(batch, j, n, steps);
      UptoNext(steps * batch + j);
      var t := ring.Wait(idx + j);
      log := log + [t];
      j := j + 1;
    }
    assert steps * (batch + 1) == steps * batch + steps;
  }

  /** The stream refers to every request of a batch that is in the ring. */
  method UseBatch(ring: Slots, batch: nat, n: nat, steps: nat, ghost first: nat, ghost next: nat, used: seq<int>)
    returns (log: seq<int>)
    requires steps > 0 && n > 0 && ring.slots.Length == n * steps
    requires InBatches(ring, steps, first, next) && first <= batch < next && used == Upto(steps * batch)
    ensures log == Upto(steps * (batch + 1))
  {
    var idx := BatchToIdx(batch, n, steps);
    Below(batch, next, steps);
    if first < batch { Below(first, batch, steps); }
    log := used;
    var j := 0;
    while j < steps
      invariant j <= steps && log == Upto(steps * batch + j)
    {
      BatchSlot(batch, j, n, steps);
      UptoNext(steps * batch + j);
      var t := ring.Peek(idx + j, steps * batch + j);
      log := log + [t];
      j := j + 1;
    }
    assert steps * (batch + 1) == steps * batch + steps;
  }

  function Max(a: nat, b: nat): (m: nat) { if a < b then b else a }

  class Pipeline {
    const steps: nat
    const inflight: nat        // batches_inflight
    const count: nat           // batch_count
    const mode: Mode
    const rank: int
    const sreq: Slots
    const rreq: Slots

    var sendsWaited: seq<int>
    var recvsWaited: seq<int>
    var sendsAwaited: seq<int> // mp_wait_all_on_stream on sends, to unlock their completions
    var log: seq<Event>        // receives used and sends made, in order, by whoever does the work
    ghost var mostSends: nat   // most batches in each ring at any time
    ghost var mostRecvs: nat

    ghost predicate Sized()
      reads this
    {
      && steps > 0 && inflight > 0 && sreq != rreq && sreq.slots != rreq.slots
      && sreq.slots.Length == inflight * steps && rreq.slots.Length == (inflight + 1) * steps
    }

    /**
      Batches sent .. and recvd .. were posted, work was posted for the first `work` batches, and the
      host waited for the first `done` of them; a synchronous host waits for receives with the work.
     */
    ghost predicate Ok(sent: nat, recvd: nat, work: nat, done: nat)
      reads this, sreq, rreq, sreq.slots, rreq.slots
    {
      && Sized() && done <= work <= sent && work <= recvd
      && InBatches(sreq, steps, done, sent)
      && InBatches(rreq, steps, if mode.Sync? then work else done, recvd)
      && sendsWaited == Upto(steps * done)
      && recvsWaited == Upto(steps * if mode.Sync? then work else done)
      && sendsAwaited == (if mode.Async? && mode.unlock then Upto(steps * work) else [])
      && log == Turns(rank, steps * work)
      && (mode.KernelInitiated? || sent == work)
    }

    constructor (steps: nat, inflight: nat, count: nat, mode: Mode, rank: int)
      requires steps > 0 && inflight > 0
      ensures Ok(0, 0, 0, 0) && mostSends == mostRecvs == 0
      ensures this.steps == steps && this.inflight == inflight && this.count == count
      ensures this.mode == mode && this.rank == rank
      ensures fresh(sreq) && fresh(rreq) && fresh(sreq.slots) && fresh(rreq.slots)
    {
      Multiple(inflight, steps);
      Multiple(inflight + 1, steps);
      sreq := new Slots(inflight * steps);
      rreq := new Slots((inflight + 1) * steps);
      this.steps, this.inflight, this.count, this.mode, this.rank := steps, inflight, count, mode, rank;
      sendsWaited, recvsWaited, sendsAwaited, log := [], [], [], [];
      mostSends, mostRecvs := 0, 0;
    }

    /** post_recv */
    method PostRecv(batch: nat, ghost sent: nat, ghost work: nat, ghost done: nat)
      requires Ok(sent, batch, work, done) && batch - (if mode.Sync? then work else done) <= inflight
      modifies this, rreq, rreq.slots
      ensures Ok(sent, batch + 1, work, done) && mostSends == old(mostSends)
      ensures mostRecvs == Max(old(mostRecvs), batch + 1 - if mode.Sync? then work else done)
    {
      PostBatch(rreq, batch, inflight + 1, steps, if mode.Sync? then work else done);
      mostRecvs := Max(mostRecvs, batch + 1 - if mode.Sync? then work else done);
    }

    /** post_send_ki: the sends of a batch are prepared before its kernel is launched. */
    method PrepareSends(batch: nat, ghost recvd: nat, ghost work: nat, ghost done: nat)
      requires Ok(batch, recvd, work, done) && mode.KernelInitiated? && batch - done < inflight
      modifies this, sreq, sreq.slots
      ensures Ok(batch + 1, recvd, work, done) && mostRecvs == old(mostRecvs)
      ensures mostSends == Max(old(mostSends), batch + 1 - done)
    {
      PostBatch(sreq, batch, inflight, steps, done);
      mostSends := Max(mostSends, batch + 1 - done);
    }

    /** j sends of a batch were made; a kernel finds them prepared, otherwise they are posted. */
    ghost predicate SendsAt(batch: nat, j: nat, sent: nat, done: nat)
      reads this, sreq, sreq.slots
    {
      && sreq.Valid() && done <= batch && sreq.first == steps * done
      && sreq.next == (if mode.KernelInitiated? then steps * sent else steps * batch + j)
    }

    /** j receives of a batch were used; a synchronous host waited for them. */
    ghost predicate RecvsAt(batch: nat, j: nat, recvd: nat, done: nat)
      reads this, rreq, rreq.slots
    {
      && rreq.Valid() && done <= batch < recvd && rreq.next == steps * recvd
      && rreq.first == (if mode.Sync? then steps * batch + j else steps * done)
      && recvsWaited == Upto(rreq.first)
    }

    method SendStep(batch: nat, j: nat, ghost sent: nat, ghost done: nat)
      requires Sized() && j < steps && SendsAt(batch, j, sent, done)
      requires if mode.KernelInitiated? then batch < sent else batch - done < inflight
      modifies this`log, sreq, sreq.slots
      ensures SendsAt(batch, j + 1, sent, done) && log == old(log) + [Sent(steps * batch + j)]
    {
      var idx := BatchToIdx(batch, inflight, steps);
      BatchSlot(batch, j, inflight, steps);
      if mode.KernelInitiated? {
        Below(batch, sent, steps);
        if done < batch { Below(done, batch, steps); }
        var t := sreq.Peek(idx + j, steps * batch + j);
        log := log + [Sent(t)];
      } else {
        Room(done, batch, inflight, steps);
        sreq.Post(idx + j, steps * batch + j);
        log := log + [Sent(steps * batch + j)];
      }
    }

    method ReceiveStep(batch: nat, j: nat, ghost recvd: nat, ghost done: nat)
      requires Sized() && j < steps && RecvsAt(batch, j, recvd, done)
      modifies this`log, this`recvsWaited, rreq, rreq.slots
      ensures RecvsAt(batch, j + 1, recvd, done) && log == old(log) + [Received(steps * batch + j)]
    {
      var idx := BatchToIdx(batch, inflight + 1, steps);
      BatchSlot(batch, j, inflight + 1, steps);
      Below(batch, recvd, steps);
      if done < batch { Below(done, batch, steps); }
      if mode.Sync? {
        UptoNext(steps * batch + j);
        var t := rreq.Wait(idx + j);
        recvsWaited, log := recvsWaited + [t], log + [Received(t)];
      } else {
        var t := rreq.Peek(idx + j, steps * batch + j);
        log := log + [Received(t)];
      }
    }

    /** Request t both ways, in the order of the rank. */
    method ExchangeStep(batch: nat, j: nat, ghost t: nat, ghost sent: nat, ghost recvd: nat, ghost done: nat)
      requires Sized() && j < steps && SendsAt(batch, j, sent, done) && RecvsAt(batch, j, recvd, done)
      requires t == steps * batch + j && log == Turns(rank, t)
      requires if mode.KernelInitiated? then batch < sent else batch - done < inflight
      modifies this`log, this`recvsWaited, sreq, sreq.slots, rreq, rreq.slots
      ensures SendsAt(batch, j + 1, sent, done) && RecvsAt(batch, j + 1, recvd, done)
      ensures log == Turns(rank, t + 1)
      ensures log == old(log) + if rank == 0 then [Received(t), Sent(t)] else [Sent(t), Received(t)]
    {
      ghost var was := log;
      if rank == 0 {
        ReceiveStep(batch, j, recvd, done);
        SendStep(batch, j, sent, done);
      } else {
        SendStep(batch, j, sent, done);
        ReceiveStep(batch, j, recvd, done);
      }
      assert log == was + if rank == 0 then [Received(t), Sent(t)] else [Sent(t), Received(t)];
    }

    /** Receives and sends of a batch step by step, in the order of the rank. */
    method Exchange(batch: nat, ghost sent: nat, ghost recvd: nat, ghost done: nat)
      requires Sized() && SendsAt(batch, 0, sent, done) && RecvsAt(batch, 0, recvd, done)
      requires log == Turns(rank, steps * batch)
      requires if mode.KernelInitiated? then batch < sent else batch - done < inflight
      modifies this`log, this`recvsWaited, sreq, sreq.slots, rreq, rreq.slots
      ensures SendsAt(batch, steps, sent, done) && RecvsAt(batch, steps, recvd, done)
      ensures log == Turns(rank, steps * batch + steps) && Alternates(log, rank, steps * batch + steps)
    {
      var j := 0;
      while j < steps
        invariant j <= steps && SendsAt(batch, j, sent, done) && RecvsAt(batch, j, recvd, done)
        invariant log == Turns(rank, steps * batch + j)
      {
        ExchangeStep(batch, j, steps * batch + j, sent, recvd, done);
        j := j + 1;
      }
      TurnsAlternate(rank, steps * batch + steps);
    }

    /** post_work_sync, post_work_async, post_work_ki. */
    method PostWork(batch: nat, ghost sent: nat, ghost recvd: nat, ghost done: nat)
      requires Ok(sent, recvd, batch, done) && batch < recvd
      requires if mode.KernelInitiated? then batch < sent else batch - done < inflight
      modifies this, sreq, sreq.slots, rreq, rreq.slots
      ensures Ok(Max(sent, batch + 1), recvd, batch + 1, done) && mostRecvs == old(mostRecvs)
      ensures Alternates(log, rank, steps * batch + steps)
      ensures mostSends == if mode.KernelInitiated? then old(mostSends) else Max(old(mostSends), batch + 1 - done)
    {
      Exchange(batch, sent, recvd, done);
      assert steps * (batch + 1) == steps * batch + steps;
      if mode.Async? && mode.unlock {
        sendsAwaited := UseBatch(sreq, batch, inflight, steps, done, batch + 1, sendsAwaited);
      }
      if !mode.KernelInitiated? {
        mostSends := Max(mostSends, batch + 1 - done);
      }
    }

    /** wait_recv, unless the host already waited with the work, and wait_send. */
    method WaitOldest(batch: nat, ghost sent: nat, ghost recvd: nat, ghost work: nat)
      requires Ok(sent, recvd, work, batch) && batch < work
      modifies this, sreq, sreq.slots, rreq, rreq.slots
      ensures Ok(sent, recvd, work, batch + 1) && mostSends == old(mostSends) && mostRecvs == old(mostRecvs)
    {
      if !mode.Sync? {
        recvsWaited := WaitBatch(rreq, batch, inflight + 1, steps, recvd, recvsWaited);
      }
      sendsWaited := WaitBatch(sreq, batch, inflight, steps, sent, sendsWaited);
    }
  }

  /** Sends prepared ahead of the work on batch j, while the pipeline fills. */
  function Ahead(p: Pipeline, j: nat): (sent: nat) {
    if p.mode.KernelInitiated? then Min(Min(p.inflight, p.count), j + 1) else j
  }

  /** One turn of the filling loop: the next receives, and sends, then the work on batch j. */
  method FillTurn(p: Pipeline, j: nat)
    requires j < p.count && j < p.inflight && p.Ok(Ahead(p, j), Min(p.count, j + 1), j, 0)
    requires p.mostSends == Ahead(p, j)
    requires p.mostRecvs == if p.mode.Sync? then Min(2, Min(p.count, j + 1)) else Min(p.count, j + 1)
    modifies p, p.sreq, p.sreq.slots, p.rreq, p.rreq.slots
    ensures p.Ok(Ahead(p, j + 1), Min(p.count, j + 2), j + 1, 0)
    ensures p.mostSends == Ahead(p, j + 1)
    ensures p.mostRecvs == if p.mode.Sync? then Min(2, Min(p.count, j + 2)) else Min(p.count, j + 2)
  {
    ghost var sent := Ahead(p, j);
    if j < p.count - 1 {
      p.PostRecv(j + 1, sent, j, 0);
      if p.mode.KernelInitiated? && j < p.inflight - 1 {
        p.PrepareSends(j + 1, j + 2, j, 0);
        sent := j + 2;
      }
    }
    p.PostWork(j, sent, Min(p.count, j + 2), 0);
  }

  /** One turn of the draining loop: the oldest batch is waited for and batch j takes its place. */
  method DrainTurn(p: Pipeline, batch: nat, j: nat)
    requires batch < p.count && j == Min(p.inflight, p.count) + batch
    requires p.Ok(Min(p.count, j), Min(p.count, j + 1), Min(p.count, j), batch)
    requires p.mostSends == Min(p.inflight, p.count)
    requires p.mostRecvs == if p.mode.Sync? then Min(2, p.count) else Min(p.inflight + 1, p.count)
    modifies p, p.sreq, p.sreq.slots, p.rreq, p.rreq.slots
    ensures p.Ok(Min(p.count, j + 1), Min(p.count, j + 2), Min(p.count, j + 1), batch + 1)
    ensures p.mostSends == old(p.mostSends) && p.mostRecvs == old(p.mostRecvs)
  {
    p.WaitOldest(batch, Min(p.count, j), Min(p.count, j + 1), Min(p.count, j));
    if j < p.count - 1 {
      p.PostRecv(j + 1, j, j, batch + 1);
    }
    if j < p.count {
      if p.mode.KernelInitiated? {
        p.PrepareSends(j, Min(p.count, j + 2), j, batch + 1);
      }
      p.PostWork(j, if p.mode.KernelInitiated? then j + 1 else j, Min(p.count, j + 2), batch + 1);
    }
  }

  /** The first loop of sr_exchange, on at least one batch. */
  method Fill(p: Pipeline) returns (j: nat)
    requires p.count > 0 && p.Ok(Ahead(p, 0), 1, 0, 0) && p.mostSends == Ahead(p, 0) && p.mostRecvs == 1
    modifies p, p.sreq, p.sreq.slots, p.rreq, p.rreq.slots
    ensures j == Min(p.inflight, p.count) && p.Ok(Ahead(p, j), Min(p.count, j + 1), j, 0) && p.mostSends == Ahead(p, j)
    ensures p.mostRecvs == if p.mode.Sync? then Min(2, Min(p.count, j + 1)) else Min(p.count, j + 1)
  {
    j := 0;
    while j < p.inflight && j < p.count
      invariant j <= p.inflight && j <= p.count
      invariant p.Ok(Ahead(p, j), Min(p.count, j + 1), j, 0) && p.mostSends == Ahead(p, j)
      invariant p.mostRecvs == if p.mode.Sync? then Min(2, Min(p.count, j + 1)) else Min(p.count, j + 1)
    {
      FillTurn(p, j);
      j := j + 1;
    }
  }

  /** The loops of sr_exchange, on at least one batch. */
  method FillAndDrain(p: Pipeline)
    requires p.count > 0 && p.Ok(Ahead(p, 0), 1, 0, 0) && p.mostSends == Ahead(p, 0) && p.mostRecvs == 1
    modifies p, p.sreq, p.sreq.slots, p.rreq, p.rreq.slots
    ensures p.Ok(p.count, p.count, p.count, p.count)
    ensures p.mostSends == Min(p.inflight, p.count)
    ensures p.mostRecvs == if p.mode.Sync? then Min(2, p.count) else Min(p.inflight + 1, p.count)
  {
    var j := Fill(p);
    var batch := 0;
    while batch < p.count
      invariant batch <= p.count && j == Min(p.inflight, p.count) + batch
      invariant p.Ok(Min(p.count, j), Min(p.count, j + 1), Min(p.count, j), batch)
      invariant p.mostSends == Min(p.inflight, p.count)
      invariant p.mostRecvs == if p.mode.Sync? then Min(2, p.count) else Min(p.inflight + 1, p.count)
    {
      DrainTurn(p, batch, j);
      batch, j := batch + 1, j + 1;
    }
  }

  /** The exchange, with its order of receives and sends in the terms of the turns. */
  method ExchangeAll(steps: nat, inflight: nat, count: nat, mode: Mode, rank: int) returns (p: Pipeline)
    requires steps > 0 && inflight > 0
    ensures p.steps == steps && p.inflight == inflight && p.count == count && p.mode == mode && p.rank == rank
    ensures count > 0 ==> p.Ok(count, count, count, count) && p.mostSends == Min(inflight, count)
    ensures count > 0 ==> p.mostRecvs == if mode.Sync? then Min(2, count) else Min(inflight + 1, count)
    ensures count == 0 ==> p.Ok(if mode.KernelInitiated? then 1 else 0, 1, 0, 0)
    ensures p.log == Turns(rank, steps * count)
  {
    p := new Pipeline(steps, inflight, count, mode, rank);
    p.PostRecv(0, 0, 0, 0);
    if mode.KernelInitiated? {
      p.PrepareSends(0, 1, 0, 0);
    }
    if count > 0 {
      FillAndDrain(p);
    }
  }

  /**
    The whole exchange. Each batch is posted once into free slots and before its work, its sends are
    prepared before its kernel, and each batch is waited for once, in order; at most D send and D + 1
    receive batches are ever in the rings, and so many are. Without a batch, the receives posted
    ahead, and the sends prepared ahead of a kernel, are never waited for.
   */
  method SrExchange(steps: nat, inflight: nat, count: nat, mode: Mode, rank: int) returns (p: Pipeline)
    requires steps > 0 && inflight > 0
    ensures p.steps == steps && p.inflight == inflight && p.count == count && p.mode == mode && p.rank == rank
    ensures count > 0 ==> p.Ok(count, count, count, count) && p.mostSends == Min(inflight, count)
    ensures count > 0 ==> p.mostRecvs == if mode.Sync? then Min(2, count) else Min(inflight + 1, count)
    ensures count == 0 ==> p.Ok(if mode.KernelInitiated? then 1 else 0, 1, 0, 0)
    ensures |p.log| == 2 * steps * count
    ensures forall k {:trigger Received(k)} {:trigger Sent(k)} :: 0 <= k < steps * count ==>
      if rank == 0 then p.log[2 * k] == Received(k) && p.log[2 * k + 1] == Sent(k)
      else p.log[2 * k] == Sent(k) && p.log[2 * k + 1] == Received(k)
  {
    p := ExchangeAll(steps, inflight, count, mode, rank);
    TurnsAre(rank, steps * count);
  }
}
