/** A ring of request slots: posts go round at one end, waits at the other. */
module Ring {

  const FREE := -1

  lemma Multiple(d: int, size: int)
    requires size > 0
    ensures d >= 1 ==> d * size >= size
    ensures d <= -1 ==> d * size <= -size
  {
    if d >= 1 { assert (d - 1) * size >= 0; }
    if d <= -1 { assert (-d - 1) * size >= 0; }
  }

  lemma DivIs(n: nat, q: int, m: nat, size: nat)
    requires m < size && n == q * size + m
    ensures n / size == q && n % size == m
  {
    var d := n / size - q;
    assert n == (n / size) * size + n % size;
    assert d * size == (n / size) * size - q * size;
    Multiple(d, size);
  }

  lemma Apart(t: nat, u: nat, size: nat)
    requires size > 0 && t < u < t + size
    ensures t % size != u % size
  {
    var d := u / size - t / size;
    assert t == (t / size) * size + t % size && u == (u / size) * size + u % size;
    assert d * size == (u / size) * size - (t / size) * size;
    Multiple(d, size);
  }

  lemma NextIndex(n: nat, size: nat)
    requires size > 0
    ensures (n % size + 1) % size == (n + 1) % size
  {
    var q, m := n / size, n % size;
    assert n == q * size + m;
    if m + 1 < size {
      DivIs(n + 1, q, m + 1, size);
      DivIs(m + 1, 0, m + 1, size);
    } else {
      assert n + 1 == (q + 1) * size;
      DivIs(n + 1, q + 1, 0, size);
      DivIs(m + 1, 1, 0, size);
    }
  }

  /** The requests first, ..., next - 1 sit in their slots, and every other slot is free. */
  ghost predicate Holds(q: seq<int>, first: nat, next: nat) {
    && 0 < |q| && first <= next <= first + |q|
    && (forall t: nat {:trigger q[t % |q|]} :: first <= t < next ==> q[t % |q|] == t)
    && (forall k {:trigger q[k]} :: 0 <= k < |q| && q[k] != FREE ==> first <= q[k] < next && q[k] % |q| == k)
  }

  lemma FreeAt(q: seq<int>, first: nat, next: nat)
    requires Holds(q, first, next) && next - first < |q|
    ensures q[next % |q|] == FREE
  {
    var t := q[next % |q|];
    if t != FREE { Apart(t, next, |q|); }
  }

  lemma Posted(q: seq<int>, first: nat, next: nat)
    requires Holds(q, first, next) && next - first < |q|
    ensures Holds(q[next % |q| := next], first, next + 1)
  {
    var p, n := q[next % |q| := next], |q|;
    forall t: nat | first <= t < next + 1 ensures p[t % n] == t {
      if t < next { Apart(t, next, n); assert q[t % n] == t; }
    }
  }

  lemma Waited(q: seq<int>, first: nat, next: nat)
    requires Holds(q, first, next) && first < next
    ensures q[first % |q|] == first && Holds(q[first % |q| := FREE], first + 1, next)
  {
    var p, n := q[first % |q| := FREE], |q|;
    assert q[first % n] == first;
    forall t: nat | first + 1 <= t < next ensures p[t % n] == t {
      Apart(first, t, n);
      assert q[t % n] == t;
    }
  }

  class Slots {
    const slots: array<int>    // the request posted in each slot, FREE when none is outstanding
    ghost var first: nat       // oldest request not waited for
    ghost var next: nat        // next request to be posted

    ghost predicate Valid()
      reads this, slots
    {
      Holds(slots[..], first, next)
    }

    constructor (size: nat)
      requires size > 0
      ensures Valid() && fresh(slots) && slots.Length == size && first == next == 0
    {
      slots := new int[size](_ => FREE);
      first, next := 0, 0;
    }

    /** Request t is posted into a slot whose previous occupant has been waited for. */
    method Post(idx: nat, t: nat)
      requires Valid() && next - first < slots.Length && t == next && idx == t % slots.Length
      modifies this, slots
      ensures Valid() && first == old(first) && next == old(next) + 1
      ensures old(slots[idx]) == FREE && slots[idx] == t
    {
      FreeAt(slots[..], first, next);
      Posted(slots[..], first, next);
      assert slots[idx] == FREE;
      slots[idx] := t;
      next := next + 1;
    }

    /** The oldest request is waited for; its slot is free again. */
    method Wait(idx: nat) returns (t: int)
      requires Valid() && first < next && idx == first % slots.Length
      modifies this, slots
      ensures Valid() && t == old(first) && first == old(first) + 1 && next == old(next)
    {
      Waited(slots[..], first, next);
      t := slots[idx];
      slots[idx] := FREE;
      first := first + 1;
    }

    /** The request a stream wait on the slot refers to. */
    method Peek(idx: nat, ghost t: nat) returns (r: int)
      requires Valid() && first <= t < next && idx == t % slots.Length
      ensures r == t
    {
      assert slots[..][t % |slots[..]|] == t;
      r := slots[idx];
    }
  }
}
