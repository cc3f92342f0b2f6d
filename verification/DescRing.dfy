/** The ring of descriptor batches behind comm_prepare_* and comm_prepared_requests. */
module DescRing {

  /** n_dreqs */
  const SLOTS: nat := 128

  /** The descriptors filled into one slot since it was zeroed. */
  type Batch = seq<int>

  datatype State = State(slots: seq<Batch>, idx: nat)

  predicate Sized(s: State) { |s.slots| == SLOTS && s.idx < SLOTS }

  const START := State(seq(SLOTS, i => []), 0)

  datatype Op = Prepare(desc: int) | TakeBatch

  function Apply(s: State, op: Op): (t: State)
    requires Sized(s)
    ensures Sized(t)
  {
    match op
    case Prepare(d) => s.(slots := s.slots[s.idx := s.slots[s.idx] + [d]])
    case TakeBatch =>
      var next := (s.idx + 1) % SLOTS;
      State(s.slots[next := []], next)
  }

  function Run(s: State, ops: seq<Op>): (t: State)
    requires Sized(s)
    ensures Sized(t)
  {
    if ops == [] then s else Apply(Run(s, ops[..|ops| - 1]), ops[|ops| - 1])
  }

  function Takes(ops: seq<Op>): (n: nat) {
    if ops == [] then 0 else Takes(ops[..|ops| - 1]) + if ops[|ops| - 1].TakeBatch? then 1 else 0
  }

  /** Where the ring is after some calls. */
  lemma {:induction false} IndexAfter(s: State, ops: seq<Op>)
    requires Sized(s)
    ensures Run(s, ops).idx == (s.idx + Takes(ops)) % SLOTS
  {
    if ops != [] { IndexAfter(s, ops[..|ops| - 1]); }
  }

  /** A batch that was taken is untouched for the next 126 takes, whatever is prepared in between. */
  lemma {:induction false} TakenIsStable(s: State, ops: seq<Op>)
    requires Sized(s) && Takes(ops) <= SLOTS - 2
    ensures Run(Apply(s, TakeBatch), ops).slots[s.idx] == s.slots[s.idx]
  {
    if ops != [] {
      var init := ops[..|ops| - 1];
      TakenIsStable(s, init);
      IndexAfter(Apply(s, TakeBatch), init);
    }
  }

  /** And the take after these 126 is the one that zeroes it, to be filled again. */
  lemma FirstZeroed(s: State, ops: seq<Op>)
    requires Sized(s) && Takes(ops) == SLOTS - 2
    ensures var t := Apply(Run(Apply(s, TakeBatch), ops), TakeBatch);
      t.slots[s.idx] == [] && t.idx == s.idx
  {
    IndexAfter(Apply(s, TakeBatch), ops);
  }

  /** What was prepared since the last take. */
  function Since(ops: seq<Op>): (b: Batch) {
    if ops == [] then []
    else match ops[|ops| - 1]
      case Prepare(d) => Since(ops[..|ops| - 1]) + [d]
      case TakeBatch => []
  }

  /** The batch handed out is exactly what was prepared since the last one: each starts on a zeroed slot. */
  lemma {:induction false} BatchIsSince(ops: seq<Op>)
    ensures Run(START, ops).slots[Run(START, ops).idx] == Since(ops)
  {
    if ops != [] { BatchIsSince(ops[..|ops| - 1]); }
  }

  function Prepares(ds: seq<int>): (ops: seq<Op>) { seq(|ds|, i requires 0 <= i < |ds| => Prepare(ds[i])) }

  /** Whatever was done before a take, the descriptors prepared after it, and only they, make up the next batch. */
  lemma {:induction false} SinceIs(ops: seq<Op>, ds: seq<int>)
    ensures Since(ops + [TakeBatch] + Prepares(ds)) == ds && Since(Prepares(ds)) == ds
  {
    var all := ops + [TakeBatch] + Prepares(ds);
    if ds == [] {
      assert all == ops + [TakeBatch] && all[|all| - 1] == TakeBatch;
    } else {
      var init, last := ds[..|ds| - 1], ds[|ds| - 1];
      SinceIs(ops, init);
      assert Prepares(ds)[..|ds| - 1] == Prepares(init);
      assert all[..|all| - 1] == ops + [TakeBatch] + Prepares(init) && all[|all| - 1] == Prepare(last);
    }
  }

  /** The ring as comm.cpp keeps it. */
  class Ring {
    var pdreqs: array?<Batch>   // allocated and zeroed on first use
    var idx: nat
    ghost var ops: seq<Op>      // calls so far

    ghost predicate Valid()
      reads this, pdreqs
    {
      if pdreqs == null then ops == []
      else pdreqs.Length == SLOTS && Sized(Run(START, ops)) && Run(START, ops) == State(pdreqs[..], idx)
    }

    constructor ()
      ensures Valid() && ops == []
    {
      pdreqs, idx, ops := null, 0, [];
    }

    /** dreqs() */
    method Slots() returns (slots: array<Batch>)
      requires Valid()
      modifies this`pdreqs, this`idx
      ensures Valid() && pdreqs == slots && slots.Length == SLOTS && idx < SLOTS
      ensures old(pdreqs) != null ==> pdreqs == old(pdreqs) && idx == old(idx) && slots[..] == old(pdreqs[..])
      ensures old(pdreqs) == null ==> fresh(slots) && forall k :: 0 <= k < SLOTS ==> slots[k] == []
    {
      if pdreqs == null {
        var zeroed := new Batch[SLOTS](_ => []);
        assert zeroed[..] == START.slots;
        pdreqs, idx := zeroed, 0;
      }
      slots := pdreqs;
    }

    /** Any of the comm_prepare_* calls. */
    method PrepareDesc(desc: int)
      requires Valid()
      modifies this, pdreqs
      ensures Valid() && ops == old(ops) + [Prepare(desc)]
      ensures pdreqs != null && pdreqs.Length == SLOTS && idx < SLOTS
      ensures old(pdreqs) == null ==> pdreqs[idx] == [desc] && forall k :: 0 <= k < SLOTS && k != idx ==> pdreqs[k] == []
      ensures old(pdreqs) != null ==> pdreqs == old(pdreqs) && idx == old(idx) && pdreqs[idx] == old(pdreqs[idx]) + [desc]
      ensures old(pdreqs) != null ==> forall k :: 0 <= k < SLOTS && k != idx ==> pdreqs[k] == old(pdreqs[k])
    {
      var slots := Slots();
      assert (ops + [Prepare(desc)])[..|ops|] == ops;
      ghost var was := slots[..];
      slots[idx] := slots[idx] + [desc];
      assert slots[..] == was[idx := was[idx] + [desc]];
      ops := ops + [Prepare(desc)];
    }

    /** comm_prepared_requests: the slot of the batch that was being prepared. */
    method PreparedRequests() returns (slot: nat)
      requires Valid()
      modifies this, pdreqs
      ensures Valid() && ops == old(ops) + [TakeBatch] && slot == Run(START, old(ops)).idx
      ensures pdreqs != null && slot < pdreqs.Length == SLOTS && pdreqs[slot] == Since(old(ops))
      ensures idx == (slot + 1) % SLOTS && pdreqs[idx] == []
      ensures old(pdreqs) != null ==> pdreqs == old(pdreqs) && slot == old(idx)
      ensures old(pdreqs) != null ==> forall k :: 0 <= k < SLOTS && k != idx ==> pdreqs[k] == old(pdreqs[k])
    {
      var slots := Slots();
      BatchIsSince(ops);
      assert (ops + [TakeBatch])[..|ops|] == ops;
      ghost var was := slots[..];
      slot := idx;
      idx := (idx + 1) % SLOTS;
      slots[idx] := [];
      assert slots[..] == was[idx := []];
      ops := ops + [TakeBatch];
    }
  }
}
