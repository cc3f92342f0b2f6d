/** Who owns a request record: the free list, or exactly one of a client's queues. */
module Ownership {
  import opened Requests
  import opened EventSync
  import opened Ledger
  import RequestPool
  import C = Client

  predicate InQueue(p: Place) { p.AtPosted? || p.AtNic? || p.AtCq? }

  /** The records waiting at a place: the posted list, a NIC queue or a completion queue. */
  ghost function Queue(c: C.Client, p: Place): (q: seq<MpRequest>)
    requires InQueue(p)
    reads c, c.posted
  {
    match p
    case AtPosted => c.posted.items
    case AtNic(f) => c.Regs(f).nic
    case AtCq(f) => c.Regs(f).cq
  }

  ghost function Ids(s: State, p: Place): (q: seq<nat>)
    requires InQueue(p)
  {
    match p
    case AtPosted => s.tx.posted
    case AtNic(f) => LaneOf(s, f).nic
    case AtCq(f) => LaneOf(s, f).cq
  }

  lemma InPlaceOf(c: C.Client, p: Place, i: nat)
    requires c.Valid() && InQueue(p) && i < |Queue(c, p)|
    ensures |Ids(c.abs, p)| == |Queue(c, p)| && Sits(c.book, Ids(c.abs, p)[i], p, Queue(c, p)[i])
    ensures Queue(c, p)[i].id == Ids(c.abs, p)[i]
  {
    var ids, q := Ids(c.abs, p), Queue(c, p);
    assert Holds(c.book, q, ids, p);
    assert Sits(c.book, ids[i], p, q[i]);
    RecordSays(c.abs, c.book, ids[i], p, q[i]);
  }

  /**
    In every valid client no record is at two places of its queues, or in a queue and on the free
    list.
   */
  lemma OnePlaceEach(c: C.Client, pool: RequestPool.Pool, p: Place, i: nat, q: Place, j: nat)
    requires c.Valid() && pool.Valid() && c.Owns(pool)
    requires InQueue(p) && i < |Queue(c, p)| && InQueue(q) && j < |Queue(c, q)|
    ensures Queue(c, p)[i] == Queue(c, q)[j] ==> p == q && i == j
    ensures Queue(c, p)[i] in pool.live && Queue(c, p)[i] !in pool.free
  {
    pool.Look();
    InPlaceOf(c, p, i);
    InPlaceOf(c, q, j);
    if p == q && i != j {
      assert Holds(c.book, Queue(c, p), Ids(c.abs, p), p);
      IdsDiffer(Ids(c.abs, p), i, j);
    }
  }

  lemma IdsDiffer(ids: seq<nat>, i: nat, j: nat)
    requires i < |ids| && j < |ids| && i != j && forall k, l {:trigger Differ(ids, k, l)} :: Differ(ids, k, l)
    ensures ids[i] != ids[j]
  {
    assert Differ(ids, i, j) && Differ(ids, j, i);
  }
}
