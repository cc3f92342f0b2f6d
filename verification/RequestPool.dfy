/** The free list of request records, shared by all clients. */
module RequestPool {
  import opened Requests

  /** mp_request_limit: the number of records in one region. */
  const REGION := 512

  /** A new region, its records chained up one by one. */
  method NewRegion() returns (region: seq<MpRequest>)
    ensures |region| == REGION && NextChain(region[0], region)
    ensures forall k :: 0 <= k < |region| ==> fresh(region[k]) && region[k].kind == NullReq
  {
    region := [];
    while |region| < REGION
      invariant |region| <= REGION && Distinct(region)
      invariant forall k :: 0 <= k < |region| ==> fresh(region[k]) && region[k].kind == NullReq
    {
      var r := new MpRequest();
      region := region + [r];
    }
    var i := 0;
    while i < REGION - 1
      invariant 0 <= i <= REGION - 1 && Distinct(region) && |region| == REGION
      invariant forall k :: 0 <= k < |region| ==> fresh(region[k]) && region[k].kind == NullReq
      invariant forall k :: 0 <= k < i ==> region[k].next == After(region, k)
    {
      region[i].next := region[i + 1];
      i := i + 1;
    }
    region[i].next := null;
  }

  /** What holds of the pool is looked into only where a fact is marked. */
  predicate Marked(k: int) { 0 <= k }

  class Pool {
    var freeList: MpRequest?
    var regions: nat
    ghost var free: seq<MpRequest>   // the free list, head first
    ghost var live: set<MpRequest>   // records handed out and not yet released
    ghost var records: set<MpRequest>   // all records of the regions allocated so far

    /**
      The free list is a finite chain of distinct records, none of them live and all cleared, and the
      free and the live records together are those of the regions allocated so far.
     */
    ghost predicate Consistent()
      reads this, free
    {
      && NextChain(freeList, free)
      && (forall i :: 0 <= i < |free| ==> free[i] !in live && free[i] in records)
      && (forall i {:trigger free[i].kind} :: 0 <= i < |free| ==> free[i].kind == NullReq)
      && live <= records && |free| + |live| == REGION * regions
    }

    ghost predicate Valid()
      reads this, free
    {
      forall k {:trigger Marked(k)} :: Marked(k) ==> Consistent()
    }

    lemma Look()
      requires Valid()
      ensures Consistent()
    {
      assert Marked(0);
    }

    constructor ()
      ensures Valid() && live == records == {} && free == [] && regions == 0
    {
      freeList, regions := null, 0;
      free, live, records := [], {}, {};
    }

    method AllocateRequests()
      requires Consistent() && freeList == null
      modifies this
      ensures Consistent() && regions == old(regions) + 1 && |free| == REGION && live == old(live)
      ensures old(records) <= records && fresh(records - old(records))
      ensures forall i :: 0 <= i < |free| ==> fresh(free[i])
    {
      var region := NewRegion();
      freeList := region[0];
      free, regions := region, regions + 1;
      records := records + set r | r in region;
    }

    /** The head of a non-empty free list, unlinked. */
    method TakeHead() returns (req: MpRequest)
      requires Consistent() && freeList != null
      modifies this, (set r | r in free)`next, (set r | r in free)`prev
      ensures Consistent() && regions == old(regions) && records == old(records)
      ensures req == old(free)[0] && free == old(free)[1..]
      ensures req !in old(live) && live == old(live) + {req}
      ensures req.next == null && req.prev == null
    {
      req := freeList;
      ChainTail(freeList, free);
      freeList := freeList.next;
      free, live := free[1..], live + {req};
      req.next := null;
      req.prev := null;
    }

    /** The head of the free list; a new region is allocated when the list is empty. */
    method GetRequest() returns (req: MpRequest)
      requires Valid()
      modifies this, (set r | r in free)`next, (set r | r in free)`prev
      ensures Valid() && req !in old(live) && live == old(live) + {req}
      ensures regions == old(regions) + if old(free) == [] then 1 else 0
      ensures old(free) != [] ==> req == old(free)[0] && free == old(free)[1..]
      ensures old(free) == [] ==> fresh(req) && forall i :: 0 <= i < |free| ==> fresh(free[i])
      ensures req.next == null && req.prev == null
      ensures old(records) <= records && fresh(records - old(records))
    {
      Look();
      if freeList == null {
        AllocateRequests();
      }
      req := TakeHead();
    }

    /** Back to the head of the free list. */
    method Release(req: MpRequest)
      requires Valid() && req in live
      modifies this, req`next, req`prev, req`kind, req`status
      ensures Valid() && regions == old(regions) && records == old(records)
      ensures free == [req] + old(free) && live == old(live) - {req}
      ensures req.kind == NullReq && req.status == Undef
    {
      Look();
      req.next := freeList;
      req.prev := null;
      req.kind := NullReq;
      req.status := Undef;
      ChainCons(req, freeList, free);
      freeList := req;
      free, live := [req] + free, live - {req};
    }
  }
}
