module IndexGrowth {
  /**
   `new_block_index` of both kinds of producer, with the loops that copy the old ring into
   the new header. The step machines take the growth of an index as one step of the only
   thread that writes it; these methods show that the copying computes that step.

   The capacities are powers of two, so a mask is written as a remainder (see `WrappingArithmetic`).
   */

  import opened Wrappers
  import opened ModArithmetic
  import opened IndexBlocks
  import Implicit = ImplicitIndex
  import Explicit = ExplicitIndex

  /** A walk of less than one turn from behind `end` to `end` arrives only at its last step. */
  lemma ArrivesLast(end: nat, left: nat, n: Size)
    requires end < n && left < n
    ensures (end - left) % n == end <==> left == 0
  {
    if (end - left) % n == end {
      ModUnique(end, n, 0, end);
      ModEqual(end - left, end, n);
    } else if left == 0 {
      ModUnique(end, n, 0, end);
    }
  }

  /** The slot `q` places behind slot `from` of a ring. */
  function Ahead(from: int, q: int, n: Size): (r: nat)
    ensures r < n
    ensures q == 0 ==> r == from % n
  {
    (from + q) % n
  }

  /** Of `used` slots starting at `from`, the one the walk stops at comes right after the last. */
  lemma WalkEndsBehindUsed(from: int, used: nat, j: nat, n: Size)
    requires j < used <= n && 0 <= from + used < n
    ensures (Ahead(from, j, n) + 1) % n == Ahead(from, j + 1, n)
    ensures Ahead(from, j + 1, n) == from + used <==> j + 1 == used
  {
    OneFurther(from, j, n);
    ArrivesLast(from + used, used - (j + 1), n);
    assert from + (j + 1) == from + used - (used - (j + 1));
  }

  lemma OneFurther(from: int, j: nat, n: Size)
    ensures ((from + j) % n + 1) % n == (from + (j + 1)) % n
  {
    ModAdd(from + j, 1, n);
  }

  /**
   The implicit producer's: the old entries in ring order from behind the tail, then the
   numbers of the fresh entries, which start at `first`.
   */
  method NewImplicitIndex(prev: array<nat>, prevTail: nat, first: nat) returns (index: array<nat>, tail: nat)
    requires 0 < prev.Length && prevTail < prev.Length
    ensures fresh(index)
    ensures forall off: int, hi: nat, blocks: nat ::
              var g := Implicit.Grown(Implicit.Header(prev.Length, prev[..], prevTail, off, hi), first, blocks);
              index[..] == g.index && index.Length == g.cap && tail == g.tail
  {
    var cap := prev.Length;
    index := new nat[2 * cap];
    var prevPos := prevTail;
    var i := 0;
    var more := true;
    ModUnique(prevTail, cap, 0, prevTail);
    while more
      modifies index
      invariant 0 <= i <= cap && more == (i < cap)
      invariant prevPos == (prevTail + i) % cap
      invariant forall q :: 0 <= q < i ==> index[q] == prev[(prevTail + 1 + q) % cap]
      decreases cap - i
    {
      OneFurther(prevTail, i, cap);
      prevPos := (prevPos + 1) % cap;
      index[i] := prev[prevPos];
      assert prevTail + (i + 1) == prevTail + 1 + i;
      i := i + 1;
      ModShift(prevTail + i, -1, cap);
      ArrivesLast(prevTail, cap - i, cap);
      more := prevPos != prevTail;
    }
    // the fresh entries
    for e := 0 to cap
      modifies index
      invariant forall q :: 0 <= q < cap ==> index[q] == prev[(prevTail + 1 + q) % cap]
      invariant forall q :: cap <= q < cap + e ==> index[q] == first + (q - cap)
    {
      index[cap + e] := first + e;
    }
    ModUnique(cap - 1, 2 * cap, 0, cap - 1);
    tail := (cap - 1) % (2 * cap);
    forall off: int, hi: nat, blocks: nat
      ensures index[..] == Implicit.Grown(Implicit.Header(cap, prev[..], prevTail, off, hi), first, blocks).index
    {
      var h := Implicit.Header(cap, prev[..], prevTail, off, hi);
      forall q: nat | q < 2 * cap ensures index[q] == Implicit.GrownIndex(h, first, q) { }
    }
  }

  /** The explicit producer's: only the slots in use are copied, to the front of the new ring. */
  method NewExplicitIndex(prev: array<Option<Explicit.Entry>>, prFront: nat, slotsUsed: nat)
    returns (entries: array<Option<Explicit.Entry>>, front: nat)
    requires prFront < prev.Length && slotsUsed <= prev.Length
    ensures fresh(entries) && front == slotsUsed
    ensures forall exposed: nat, off: int, hi: nat, first: nat ::
              entries[..] == Explicit.Grown(Explicit.Header(prev.Length, exposed, prev[..], off, hi),
                                            prFront, slotsUsed, first).entries
  {
    var size := prev.Length;
    ghost var from := prFront - slotsUsed;
    entries := new Option<Explicit.Entry>[2 * size](_ => None);
    var j := 0;
    if slotsUsed != 0 {
      hide Ahead;
      var i := (prFront - slotsUsed) % size;
      var more := true;
      while more
        modifies entries
        invariant 0 <= j <= slotsUsed && more == (j < slotsUsed)
        invariant i == Ahead(from, j, size)
        invariant forall q :: 0 <= q < j ==> entries[q] == prev[Ahead(from, q, size)]
        invariant forall q :: j <= q < 2 * size ==> entries[q] == None
        decreases slotsUsed - j
      {
        entries[j] := prev[i];
        WalkEndsBehindUsed(from, slotsUsed, j, size);
        j := j + 1;
        i := (i + 1) % size;
        more := i != prFront;
      }
    }
    front := j;
    forall exposed: nat, off: int, hi: nat, first: nat
      ensures entries[..] == Explicit.Grown(Explicit.Header(size, exposed, prev[..], off, hi), prFront, slotsUsed,
              first).entries
    {
      var h := Explicit.Header(size, exposed, prev[..], off, hi);
      forall q: nat | q < 2 * size ensures entries[q] == Explicit.GrownEntry(h, prFront, slotsUsed, q) { }
    }
  }
}
