/** The posted list of a client: a doubly linked list threaded through the requests themselves. */
module PostedList {
  import opened Requests

  class List {
    var head: MpRequest?   // posted_stream_req
    var tail: MpRequest?   // last_posted_stream_req
    ghost var items: seq<MpRequest>

    ghost predicate Valid()
      reads this, items
    {
      DoublyLinked(head, tail, items)
    }

    constructor ()
      ensures Valid() && items == []
    {
      head, tail, items := null, null, [];
    }

    /** client_track_posted_stream_req: append at the tail. */
    method Track(req: MpRequest)
      requires Valid() && req !in items && req.next == null && req.prev == null
      modifies this, items`next, req`prev
      ensures Valid() && items == old(items) + [req]
    {
      if head == null {
        head, tail := req, req;
      } else {
        tail.next := req;
        req.prev := tail;
        tail := req;
      }
      items := items + [req];
    }

    /** The delinking code of progress_posted_list, for a request anywhere in the list. */
    method Delink(req: MpRequest, ghost k: nat)
      requires Valid() && k < |items| && items[k] == req
      modifies this, items`next, items`prev
      ensures Valid() && items == old(items[..k] + items[k + 1..])
      ensures req.next == null && req.prev == null
    {
      if req.next != null {
        req.next.prev := req.prev;
      }
      if req.prev != null {
        req.prev.next := req.next;
      }
      if head == req {
        head := req.next;
      }
      if tail == req {
        tail := req.prev;
      }
      req.prev, req.next := null, null;
      Unlinked(head, tail, items, k);
      items := items[..k] + items[k + 1..];
    }
  }

  /** Everyone but q[k] is linked as in q, except that the neighbours of q[k] now bypass it. */
  ghost predicate Bypassed(q: seq<MpRequest>, k: nat)
    requires k < |q|
    reads q
  {
    && Distinct(q)
    && (forall i {:trigger q[i].next} :: 0 <= i < |q| && i != k ==>
          q[i].next == if i + 1 == k then After(q, k) else After(q, i))
    && (forall i {:trigger q[i].prev} :: 0 <= i < |q| && i != k ==>
          q[i].prev == if i == k + 1 then Before(q, k) else Before(q, i))
  }

  lemma Unlinked(head: MpRequest?, tail: MpRequest?, q: seq<MpRequest>, k: nat)
    requires k < |q| && Bypassed(q, k)
    requires head == (if k == 0 then After(q, 0) else q[0])
    requires tail == (if k + 1 == |q| then Before(q, k) else q[|q| - 1])
    ensures DoublyLinked(head, tail, q[..k] + q[k + 1..])
  {
    var s := q[..k] + q[k + 1..];
    forall i | 0 <= i < |s| ensures s[i].next == After(s, i) && s[i].prev == Before(s, i) {
      var j := if i < k then i else i + 1;
      assert s[i] == q[j] && q[j].next == q[j].next && q[j].prev == q[j].prev;
    }
  }
}
