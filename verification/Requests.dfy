/** The request record, its states and the predicates on it (src/mp_internal.h). */
module Requests {

  datatype ReqType = NullReq | SendReq | RecvReq | RdmaReq

  datatype Status = Undef | Prepared | PendingNowait | Pending | Complete

  predicate IsTx(t: ReqType) { t.SendReq? || t.RdmaReq? }

  class MpRequest {
    var kind: ReqType
    var status: Status
    var trigger: bool
    var nowait: bool       // flags & MP_PUT_NOWAIT
    var id: nat
    var next: MpRequest?
    var prev: MpRequest?

    constructor ()
      ensures kind == NullReq
    {
      kind, status, trigger, nowait, id := NullReq, Undef, false, false, 0;
      next, prev := null, null;
    }
  }

  /** req_can_be_waited */
  predicate Waitable(kind: ReqType, nowait: bool) { kind.RecvReq? || (IsTx(kind) && !nowait) }

  predicate CanBeWaited(r: MpRequest)
    reads r`kind, r`nowait
  {
    Waitable(r.kind, r.nowait)
  }

  ghost predicate Distinct<T>(q: seq<T>) { forall i, j :: 0 <= i < j < |q| ==> q[i] != q[j] }

  /** The neighbours of position i in a linked sequence. */
  function After(q: seq<MpRequest>, i: int): (r: MpRequest?) { if -1 <= i < |q| - 1 then q[i + 1] else null }

  function Before(q: seq<MpRequest>, i: int): (r: MpRequest?) { if 0 < i <= |q| then q[i - 1] else null }

  /** The objects of q, in order, are what one meets following `next` from head. */
  ghost predicate NextChain(head: MpRequest?, q: seq<MpRequest>)
    reads q
  {
    && head == After(q, -1)
    && Distinct(q)
    && forall i {:trigger q[i].next} :: 0 <= i < |q| ==> q[i].next == After(q, i)
  }

  lemma ChainTail(head: MpRequest?, q: seq<MpRequest>)
    requires NextChain(head, q) && q != []
    ensures NextChain(q[0].next, q[1..])
  {
    var rest := q[1..];
    forall i | 0 <= i < |rest| ensures rest[i].next == After(rest, i) {
      assert rest[i] == q[i + 1];
    }
  }

  lemma ChainCons(r: MpRequest, head: MpRequest?, q: seq<MpRequest>)
    requires NextChain(head, q) && r !in q && r.next == head
    ensures NextChain(r, [r] + q)
  {
    var all := [r] + q;
    forall i | 0 <= i < |all| ensures all[i].next == After(all, i) {
      if i > 0 { assert all[i] == q[i - 1]; }
    }
  }

  /** And following `prev` from tail one meets them backwards. */
  ghost predicate DoublyLinked(head: MpRequest?, tail: MpRequest?, q: seq<MpRequest>)
    reads q
  {
    && NextChain(head, q)
    && tail == Before(q, |q|)
    && forall i {:trigger q[i].prev} :: 0 <= i < |q| ==> q[i].prev == Before(q, i)
  }
}
