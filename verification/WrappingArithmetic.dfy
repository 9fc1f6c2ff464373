module WrappingArithmetic {
  /**
   The queue's arithmetic on machine words of `w` bits: comparison around the wrap, masks,
   rounding up to a power of two, and the slot of a block in a ring. Words are numbers
   below `Pow2(w)`; counters that never wrap are unbounded, and the word of a counter is
   its remainder.
   */

  import opened ModArithmetic
  import IndexBlocks

  function Pow2(n: nat): (p: int)
    ensures p > 0
  {
    if n == 0 then 1 else 2 * Pow2(n - 1)
  }

  function Word(w: nat, x: int): nat { x % Pow2(w) }

  lemma {:induction false} Pow2Adds(m: nat, n: nat)
    ensures Pow2(m + n) == Pow2(m) * Pow2(n)
  {
    if m > 0 { Pow2Adds(m - 1, n); }
  }

  lemma Pow2Divides(m: nat, n: nat)
    requires n <= m
    ensures Pow2(m) == Pow2(m - n) * Pow2(n) && Pow2(m) % Pow2(n) == 0 && Pow2(m) / Pow2(n) == Pow2(m - n)
  {
    Pow2Adds(m - n, n);
    ModUnique(Pow2(m), Pow2(n), Pow2(m - n), 0);
  }

  lemma {:induction false} Pow2Order(m: nat, n: nat)
    requires m < n
    ensures 2 * Pow2(m) <= Pow2(n)
  {
    if m + 1 < n { Pow2Order(m, n - 1); }
  }

  // ---------------------------------------------------------------------------
  // Bits
  // ---------------------------------------------------------------------------

  function Bit(x: nat, i: nat): bool
    decreases i
  {
    if i == 0 then x % 2 == 1 else Bit(x / 2, i - 1)
  }

  function Or(x: nat, y: nat): nat {
    if x == 0 then y else if y == 0 then x
    else 2 * Or(x / 2, y / 2) + if x % 2 == 1 || y % 2 == 1 then 1 else 0
  }

  function And(x: nat, y: nat): nat {
    if x == 0 || y == 0 then 0
    else 2 * And(x / 2, y / 2) + if x % 2 == 1 && y % 2 == 1 then 1 else 0
  }

  function ShiftRight(x: nat, n: nat): nat
    decreases n
  {
    if n == 0 then x else ShiftRight(x / 2, n - 1)
  }

  lemma {:induction false} ZeroBits(i: nat)
    ensures !Bit(0, i)
  {
    if i > 0 { ZeroBits(i - 1); }
  }

  lemma {:induction false} OrBits(x: nat, y: nat, i: nat)
    ensures Bit(Or(x, y), i) == (Bit(x, i) || Bit(y, i))
    decreases i
  {
    ZeroBits(i);
    if i > 0 && x > 0 && y > 0 { OrBits(x / 2, y / 2, i - 1); }
  }

  lemma {:induction false} ShiftBits(x: nat, n: nat, i: nat)
    ensures Bit(ShiftRight(x, n), i) == Bit(x, i + n)
    decreases n
  {
    if n > 0 { ShiftBits(x / 2, n - 1, i); }
  }

  /** Words with the same bits are the same. */
  lemma {:induction false} SameBits(w: nat, x: nat, y: nat)
    requires x < Pow2(w) && y < Pow2(w) && forall i: nat | i < w :: Bit(x, i) == Bit(y, i)
    ensures x == y
  {
    if w > 0 {
      assert Bit(x, 0) == Bit(y, 0);
      forall i: nat | i < w - 1 ensures Bit(x / 2, i) == Bit(y / 2, i) {
        assert Bit(x, i + 1) == Bit(y, i + 1);
      }
      SameBits(w - 1, x / 2, y / 2);
    }
  }

  lemma {:induction false} OrFits(w: nat, x: nat, y: nat)
    requires x < Pow2(w) && y < Pow2(w)
    ensures Or(x, y) < Pow2(w)
  {
    if w > 0 && x > 0 && y > 0 { OrFits(w - 1, x / 2, y / 2); }
  }

  lemma {:induction false} ShiftFits(w: nat, x: nat, n: nat)
    requires x < Pow2(w)
    ensures ShiftRight(x, n) < Pow2(w)
    decreases n
  {
    if n > 0 { ShiftFits(w, x / 2, n - 1); }
  }

  lemma HalfRemainder(x: nat, k: nat)
    requires k > 0
    ensures x % Pow2(k) == 2 * ((x / 2) % Pow2(k - 1)) + x % 2
  {
    var a := Pow2(k - 1);
    var q, r := (x / 2) / a, (x / 2) % a;
    assert x / 2 == q * a + r;
    assert x == q * (2 * a) + (2 * r + x % 2);
    ModUnique(x, 2 * a, q, 2 * r + x % 2);
  }

  lemma AndHalves(x: nat, y: nat)
    ensures And(x, y) == 2 * And(x / 2, y / 2) + if x % 2 == 1 && y % 2 == 1 then 1 else 0
  {
  }

  lemma HalfPow2(k: nat)
    requires k > 0
    ensures Pow2(k) == 2 * Pow2(k - 1)
  {
  }

  lemma HalfOnes(k: nat)
    requires k > 0
    ensures (Pow2(k) - 1) / 2 == Pow2(k - 1) - 1 && (Pow2(k) - 1) % 2 == 1
  {
  }

  /** `x & (2^k - 1)` is the remainder. */
  lemma {:induction false} MaskIsRemainder(x: nat, k: nat)
    ensures And(x, Pow2(k) - 1) == x % Pow2(k)
  {
    if k > 0 {
      hide And, Pow2;
      MaskIsRemainder(x / 2, k - 1);
      HalfOnes(k);
      AndHalves(x, Pow2(k) - 1);
      HalfRemainder(x, k);
    }
  }

  /** `x & ~(2^k - 1)` takes the remainder away. */
  lemma {:induction false} InverseMaskDropsRemainder(w: nat, x: nat, k: nat)
    requires k <= w && x < Pow2(w)
    ensures Pow2(w) - Pow2(k) >= 0 && And(x, Pow2(w) - Pow2(k)) == x - x % Pow2(k)
    decreases w
  {
    if k == 0 {
      AllOnes(w, x);
    } else {
      InverseMaskDropsRemainder(w - 1, x / 2, k - 1);
      HalfPow2(w);
      HalfPow2(k);
      HalfRemainder(x, k);
      MaskedHalves(x, Pow2(w) - Pow2(k), Pow2(w - 1) - Pow2(k - 1), (x / 2) % Pow2(k - 1));
    }
  }

  lemma MaskedHalves(x: nat, y: nat, half: nat, r: nat)
    requires y == 2 * half && And(x / 2, half) == x / 2 - r
    ensures And(x, y) == x - (2 * r + x % 2)
  {
    AndHalves(x, y);
  }

  lemma {:induction false} AllOnes(w: nat, x: nat)
    requires x < Pow2(w)
    ensures And(x, Pow2(w) - 1) == x
  {
    if w > 0 && x > 0 { AllOnes(w - 1, x / 2); }
  }

  // ---------------------------------------------------------------------------
  // Rounding up to a power of two
  // ---------------------------------------------------------------------------

  /** Each bit of `y` tells whether one of the `n` bits of `x` from that place on is set. */
  ghost predicate Smeared(x: nat, y: nat, n: nat) {
    forall i: nat :: Bit(y, i) <==> AnyBit(x, i, n)
  }

  ghost predicate AnyBit(x: nat, i: nat, n: nat) { exists j: nat :: i <= j < i + n && Bit(x, j) }

  lemma SmearDoubles(w: nat, x: nat, y: nat, n: nat)
    requires Smeared(x, y, n) && y < Pow2(w)
    ensures Smeared(x, Or(y, ShiftRight(y, n)), 2 * n) && Or(y, ShiftRight(y, n)) < Pow2(w)
  {
    var z := Or(y, ShiftRight(y, n));
    ShiftFits(w, y, n);
    OrFits(w, y, ShiftRight(y, n));
    forall i: nat ensures Bit(z, i) <==> AnyBit(x, i, 2 * n) {
      OrBits(y, ShiftRight(y, n), i);
      ShiftBits(y, n, i);
      assert Bit(z, i) <==> AnyBit(x, i, n) || AnyBit(x, i + n, n);
    }
  }

  /** How many bits a word has up to its highest one. */
  function BitLength(x: nat): nat { if x == 0 then 0 else 1 + BitLength(x / 2) }

  lemma {:induction false} BitLengthBounds(x: nat)
    ensures x < Pow2(BitLength(x)) && (x > 0 ==> Pow2(BitLength(x) - 1) <= x)
  {
    if x > 0 { BitLengthBounds(x / 2); }
  }

  lemma {:induction false} HighBits(x: nat, i: nat)
    ensures i >= BitLength(x) ==> !Bit(x, i)
    ensures x > 0 ==> Bit(x, BitLength(x) - 1)
  {
    if x == 0 {
      ZeroBits(i);
    } else {
      HighBits(x / 2, if i > 0 then i - 1 else 0);
    }
  }

  lemma {:induction false} OnesBits(k: nat, i: nat)
    ensures Bit(Pow2(k) - 1, i) == (i < k)
  {
    if k == 0 {
      ZeroBits(i);
    } else if i > 0 {
      assert (Pow2(k) - 1) / 2 == Pow2(k - 1) - 1;
      OnesBits(k - 1, i - 1);
    }
  }

  /** A word smeared over its whole width has ones below its highest bit. */
  lemma SmearedAll(w: nat, x: nat, y: nat)
    requires x < Pow2(w) && y < Pow2(w) && Smeared(x, y, w)
    ensures y == Pow2(BitLength(x)) - 1
  {
    var k := BitLength(x);
    BitLengthBounds(x);
    if w < k - 1 { Pow2Order(w, k - 1); }
    if k < w { Pow2Order(k, w); }
    forall i: nat | i < w ensures Bit(y, i) == Bit(Pow2(k) - 1, i) {
      OnesBits(k, i);
      if i < k {
        HighBits(x, 0);
        assert i <= k - 1 < i + w && Bit(x, k - 1);
      } else {
        forall j: nat | i <= j ensures !Bit(x, j) { HighBits(x, j); }
      }
    }
    SameBits(w, y, Pow2(k) - 1);
  }

  /** The result for a word of `bytes` bytes. */
  function CeilToPow2(bytes: nat, x: nat): nat
  {
    var w := 8 * bytes;
    Word(w, Pow2(BitLength(Word(w, x - 1))))
  }

  /**
   The least power of two that is not below `x`, when there is one among the words;
   zero for zero and for words above the greatest power.
   */
  lemma CeilIsLeastPower(bytes: nat, x: nat)
    requires bytes > 0 && x < Pow2(8 * bytes)
    ensures var r := CeilToPow2(bytes, x);
            if 0 < x <= Pow2(8 * bytes - 1)
            then x <= r && (exists k: nat :: r == Pow2(k)) && forall k: nat :: Pow2(k) >= x ==> Pow2(k) >= r
            else r == 0
  {
    var w := 8 * bytes;
    if x == 0 {
      CeilOfZero(w);
    } else {
      ModUnique(x - 1, Pow2(w), 0, x - 1);
      BitLengthBounds(x - 1);
      if x <= Pow2(w - 1) { CeilInRange(w, x, BitLength(x - 1)); } else { CeilAbove(w, x, BitLength(x - 1)); }
    }
  }

  lemma CeilOfZero(w: nat)
    ensures Word(w, Pow2(BitLength(Word(w, -1)))) == 0
  {
    ModUnique(-1, Pow2(w), -1, Pow2(w) - 1);
    BitLengthOfOnes(w);
    ModUnique(Pow2(w), Pow2(w), 1, 0);
  }

  lemma CeilInRange(w: nat, x: nat, n: nat)
    requires w > 0 && 0 < x <= Pow2(w - 1) && x - 1 < Pow2(n) && (x > 1 ==> n > 0 && Pow2(n - 1) <= x - 1)
             && (x == 1 ==> n == 0)
    ensures Word(w, Pow2(n)) == Pow2(n) && x <= Pow2(n) && forall k: nat :: Pow2(k) >= x ==> Pow2(k) >= Pow2(n)
  {
    if w - 1 < n - 1 { Pow2Order(w - 1, n - 1); }
    assert n < w;
    Pow2Order(n, w);
    hide Pow2;
    ModUnique(Pow2(n), Pow2(w), 0, Pow2(n));
    forall k: nat | Pow2(k) >= x ensures Pow2(k) >= Pow2(n) { PowerAbove(x, n, k); }
  }

  lemma CeilAbove(w: nat, x: nat, n: nat)
    requires w > 0 && Pow2(w - 1) < x < Pow2(w) && x - 1 < Pow2(n) && (x > 1 ==> n > 0 && Pow2(n - 1) <= x - 1)
    ensures Word(w, Pow2(n)) == 0
  {
    if n < w - 1 { Pow2Order(n, w - 1); }
    if w < n - 1 { Pow2Order(w, n - 1); }
    assert n == w;
    hide Pow2;
    ModUnique(Pow2(w), Pow2(w), 1, 0);
  }

  lemma PowerAbove(x: nat, n: nat, k: nat)
    requires n > 0 ==> Pow2(n - 1) < x
    requires Pow2(k) >= x > 0
    ensures Pow2(k) >= Pow2(n)
  {
    if k < n - 1 { Pow2Order(k, n - 1); } else if n < k { Pow2Order(n, k); }
  }

  lemma {:induction false} BitLengthOfOnes(w: nat)
    ensures BitLength(Pow2(w) - 1) == w
  {
    if w > 0 {
      BitLengthOfOnes(w - 1);
      assert (Pow2(w) - 1) / 2 == Pow2(w - 1) - 1;
    }
  }

  /** `ceil_to_pow_2` as it is computed, for a word of `bytes` bytes; these are a power of two. */
  method CeilToPow2InPlace(bytes: nat, log: nat, x0: nat) returns (x: nat)
    requires bytes == Pow2(log) && x0 < Pow2(8 * bytes)
    ensures x == CeilToPow2(bytes, x0)
  {
    ghost var w := 8 * bytes;
    x := Word(8 * bytes, x0 - 1);
    ghost var y := x;
    assert Smeared(y, x, 1) by {
      forall i: nat ensures Bit(y, i) <==> AnyBit(y, i, 1) { if Bit(y, i) { assert i <= i < i + 1; } }
    }
    SmearDoubles(w, y, x, 1);
    x := Or(x, ShiftRight(x, 1));
    SmearDoubles(w, y, x, 2);
    x := Or(x, ShiftRight(x, 2));
    SmearDoubles(w, y, x, 4);
    x := Or(x, ShiftRight(x, 4));
    var i := 1;
    ghost var k := 0;
    while i < bytes
      invariant i == Pow2(k) && k <= log
      invariant x < Pow2(w) && Smeared(y, x, 8 * i)
    {
      if k == log { assert false; }
      SmearDoubles(w, y, x, 8 * i);
      x := Or(x, ShiftRight(x, 8 * i));
      i := 2 * i;
      k := k + 1;
    }
    if k < log { Pow2Order(k, log); }
    SmearedAll(w, y, x);
    x := Word(8 * bytes, x + 1);
  }

  // ---------------------------------------------------------------------------
  // Comparing words
  // ---------------------------------------------------------------------------

  /** `circular_less_than` on words of `w` bits. */
  function CircularLess(w: nat, a: nat, b: nat): bool
    requires w > 0
  {
    Word(w, a - b) > Pow2(w - 1)
  }

  lemma WordOfDifference(w: nat, a: int, b: int)
    ensures Word(w, Word(w, a) - Word(w, b)) == Word(w, a - b)
  {
    var m := Pow2(w);
    ModAdd(a, -(b % m), m);
    assert a - b % m == (a - b) + (b / m) * m;
    ModShift(a - b, b / m, m);
  }

  /** Up to half of the range apart the words compare as the counters do, except exactly half the range ahead. */
  lemma CircularIsOrder(w: nat, a: int, b: int)
    requires w > 0 && -Pow2(w - 1) <= a - b <= Pow2(w - 1)
    ensures (CircularLess(w, Word(w, a), Word(w, b)) <==> a < b) <==> b - a != Pow2(w - 1)
  {
    WordOfDifference(w, a, b);
    if a < b {
      ModUnique(a - b, Pow2(w), -1, a - b + Pow2(w));
    } else {
      ModUnique(a - b, Pow2(w), 0, a - b);
    }
  }

  /**
   The test of `enqueue` for leeway before a block is begun: it lets the block through exactly
   when the tail stays less than half the range ahead of the head until the block is full.
   */
  lemma LeewayKeepsDistance(w: nat, head: nat, tail: nat, bs: nat)
    requires w > 0 && head <= tail < head + Pow2(w - 1) && 0 < bs <= Pow2(w - 1)
    ensures CircularLess(w, Word(w, head), Word(w, Word(w, tail) + bs)) <==> tail + bs < head + Pow2(w - 1)
  {
    assert Pow2(w) == 2 * Pow2(w - 1);
    hide Pow2, Word;
    WordPlus(w, tail, bs);
    WordOfDifference(w, head, tail + bs);
    WordOfNegative(w, tail + bs - head);
  }

  lemma WordPlus(w: nat, a: int, b: int)
    ensures Word(w, Word(w, a) + b) == Word(w, a + b)
  {
    ModAdd(a, b, Pow2(w));
  }

  lemma WordOfNegative(w: nat, d: int)
    requires 0 < d < Pow2(w)
    ensures Word(w, -d) == Pow2(w) - d
  {
    ModUnique(-d, Pow2(w), -1, Pow2(w) - d);
  }

  /** The test of `dequeue_bulk` for something to dequeue, a difference of three counters. */
  lemma DesiredIsPositive(w: nat, tail: nat, count: nat, over: nat)
    requires w > 0 && over <= count && -Pow2(w - 1) < tail - (count - over) < Pow2(w - 1)
    ensures var desired := Word(w, Word(w, tail) - Word(w, Word(w, count) - Word(w, over)));
            && (CircularLess(w, 0, desired) <==> count - over < tail)
            && (count - over < tail ==> desired == tail - (count - over))
  {
    WordOfDifference(w, count, over);
    WordOfDifference(w, tail, count - over);
    var d := tail - (count - over);
    var desired := Word(w, d);
    if d >= 0 {
      ModUnique(d, Pow2(w), 0, d);
      if d > 0 { ModUnique(-d, Pow2(w), -1, Pow2(w) - d); } else { ModUnique(0, Pow2(w), 0, 0); }
    } else {
      ModUnique(d, Pow2(w), -1, d + Pow2(w));
      ModUnique(-(d + Pow2(w)), Pow2(w), -1, -d);
    }
  }

  // ---------------------------------------------------------------------------
  // The slot of a block
  // ---------------------------------------------------------------------------

  /**
   The lookup in a ring of `2^c` entries for blocks of `2^b` elements: the offset is negative
   when the block is behind the one at the tail, and its division by the block size is one of
   unsigned words.
   */
  function SlotOfWord(w: nat, b: nat, c: nat, index: nat, tailBase: nat, tail: nat): nat
    requires b <= w
  {
    var blockBase := And(index, InverseMask(w, b));
    var offset := Word(w, blockBase - tailBase) / Pow2(b);
    And(Word(w, tail + offset), Pow2(c) - 1)
  }

  /** `~(2^b - 1)`. */
  function InverseMask(w: nat, b: nat): nat
    requires b <= w
  {
    if b < w then Pow2Order(b, w); Pow2(w) - Pow2(b) else 0
  }

  /** The base of the block of an index, from its word. */
  lemma BaseOfWord(w: nat, b: nat, index: nat)
    requires b <= w
    ensures And(Word(w, index), InverseMask(w, b)) == Word(w, (index / Pow2(b)) * Pow2(b))
  {
    var x, m, n := Word(w, index), Pow2(w), Pow2(b);
    InverseMaskDropsRemainder(w, x, b);
    Pow2Divides(w, b);
    ModThrough(index, 0, m, n);
    hide Pow2, And, InverseMask;
    RoundedWord(index, m, n);
  }

  lemma RoundedWord(index: nat, m: int, n: int)
    requires m > 0 && n > 0 && (index % m) % n == index % n
    ensures ((index / n) * n) % m == index % m - index % n
  {
    var q, e, x, r := index / n, index / m, index % m, index % n;
    assert index == q * n + r && index == e * m + x;
    RemainderIsSmaller(x, n);
    ModUnique(q * n, m, e, x - r);
  }

  lemma RemainderIsSmaller(x: nat, n: int)
    requires n > 0
    ensures x % n <= x
  {
  }

  /** The unsigned quotient of a distance of `d` blocks. */
  lemma UnsignedQuotient(w: nat, b: nat, d: int)
    requires b <= w && -Pow2(w - b) < d < Pow2(w - b)
    ensures Word(w, d * Pow2(b)) / Pow2(b) == if d < 0 then Pow2(w - b) + d else d
  {
    Pow2Divides(w, b);
    hide Pow2;
    QuotientOfDistance(Pow2(w), Pow2(b), Pow2(w - b), d);
  }

  lemma QuotientOfDistance(m: int, n: int, q: int, d: int)
    requires n > 0 && m > 0 && m == q * n && -q < d < q
    ensures ((d * n) % m) / n == if d < 0 then q + d else d
  {
    var e, c := if d < 0 then q + d else d, if d < 0 then -1 else 0;
    assert d * n == c * m + e * n by {
      if d < 0 { assert (q + d) * n == q * n + d * n; }
    }
    assert 0 <= e * n < m by {
      MulAtLeast(q - e, n);
      assert (q - e) * n == q * n - e * n;
    }
    ModUnique(d * n, m, c, e * n);
    ModUnique(e * n, n, e, 0);
  }

  /**
   Although the offset is divided as an unsigned word, the slot is the one that counting gives,
   for all distances between blocks that fit the range: exactly when the block is not behind
   the tail or the whole ring holds no more elements than the range.
   */
  lemma SlotIsThatOfCounting(w: nat, b: nat, c: nat, index: nat, tailNum: nat, tail: nat)
    requires b <= w && c <= w
    requires var d := index / Pow2(b) - tailNum; -Pow2(w - b) < d < Pow2(w - b)
    ensures SlotOfWord(w, b, c, Word(w, index), Word(w, tailNum * Pow2(b)), tail)
              == IndexBlocks.SlotFor(Pow2(c), tail, index / Pow2(b), tailNum)
            <==> index / Pow2(b) >= tailNum || b + c <= w
  {
    hide Pow2, And, InverseMask;
    var n, k := Pow2(b), index / Pow2(b);
    var d := k - tailNum;
    var offset := if d < 0 then Pow2(w - b) + d else d;
    BaseOfWord(w, b, index);
    DistanceOfWords(w, n, k, tailNum);
    UnsignedQuotient(w, b, d);
    SlotOfOffset(w, c, tail, offset);
    if d < 0 { NegativeOffset(w - b, c, tail + d); }
  }

  lemma DistanceOfWords(w: nat, n: int, k: int, l: int)
    ensures Word(w, Word(w, k * n) - Word(w, l * n)) == Word(w, (k - l) * n)
  {
    WordOfDifference(w, k * n, l * n);
    assert k * n - l * n == (k - l) * n;
  }

  lemma SlotOfOffset(w: nat, c: nat, tail: nat, offset: nat)
    requires c <= w
    ensures And(Word(w, tail + offset), Pow2(c) - 1) == (tail + offset) % Pow2(c)
  {
    hide Pow2, And;
    MaskIsRemainder(Word(w, tail + offset), c);
    Pow2Divides(w, c);
    ModThrough(tail + offset, 0, Pow2(w), Pow2(c));
  }

  /** Adding the number of blocks in the range goes around the ring unless the ring is larger. */
  lemma NegativeOffset(m: nat, c: nat, x: int)
    ensures (x + Pow2(m)) % Pow2(c) == x % Pow2(c) <==> c <= m
  {
    if c <= m {
      Pow2Divides(m, c);
      ModShift(x, Pow2(m - c), Pow2(c));
    } else {
      Pow2Order(m, c);
      if (x + Pow2(m)) % Pow2(c) == x % Pow2(c) { ModEqual(x + Pow2(m), x, Pow2(c)); }
    }
  }

  // ---------------------------------------------------------------------------
  // Sizes stay powers of two
  // ---------------------------------------------------------------------------

  ghost predicate IsPow2(x: int) { exists k: nat :: x == Pow2(k) }

  /** The size of the explicit producer's first index, from its initial size and that of the block pool. */
  function FirstIndexSize(initial: nat, pool: nat): nat {
    var poolBased := CeilToPow2(8, pool) / 2;
    2 * if poolBased > initial / 2 then poolBased else initial / 2
  }

  lemma FirstSizeIsPow2(initial: nat, pool: nat)
    requires initial > 1 && IsPow2(initial) && pool < Pow2(64)
    ensures IsPow2(FirstIndexSize(initial, pool)) && FirstIndexSize(initial, pool) >= initial
  {
    hide Pow2, CeilToPow2;
    var r := CeilToPow2(8, pool);
    HalfOfPow2(initial);
    if r / 2 > initial / 2 {
      CeilIsLeastPower(8, pool);
      HalfOfPow2(r);
    }
  }

  lemma HalfOfPow2(x: int)
    requires IsPow2(x) && x > 1
    ensures 2 * (x / 2) == x
  {
    var k: nat :| x == Pow2(k);
  }

  lemma DoublingKeepsPow2(x: int)
    requires IsPow2(x)
    ensures IsPow2(2 * x)
  {
    var k: nat :| x == Pow2(k);
    assert 2 * x == Pow2(k + 1);
  }
}
