/** Indices cut into blocks of `bs` elements, and the arithmetic of both kinds of block index. */
module IndexBlocks {
  import opened ModArithmetic

  type Size = n: int | n > 0 witness 1

  // Accesses that the invariants show to be within bounds.

  function Nth<T>(s: seq<T>, i: nat, otherwise: T): T { if i < |s| then s[i] else otherwise }

  function Upd<T>(s: seq<T>, i: nat, x: T): seq<T> { if i < |s| then s[i := x] else s }

  function Num(bs: Size, j: nat): nat { j / bs }

  function Base(bs: Size, k: nat): nat { k * bs }

  /** How many blocks the indices below `j` touch. */
  function Blocks(bs: Size, j: nat): nat { (j + bs - 1) / bs }

  function Min(a: int, b: int): int { if a < b then a else b }

  function Max(a: int, b: int): (m: int)
    ensures m >= a && m >= b
  {
    if a > b then a else b
  }

  /** Where the part of a claim that lies in the block of its first index ends. */
  function ChunkEnd(bs: Size, next: nat, last: nat): nat { Min(last, Base(bs, Num(bs, next)) + bs) }

  /** `get_block_index_index_for_index`, from the position of the tail and the key found there. */
  function SlotFor(cap: Size, pos: nat, k: nat, key: nat): nat { (pos + (k - key)) % cap }

  function Length(from: int, to: int): nat { if from < to then to - from else 0 }

  lemma BaseOrder(bs: Size, k: nat, l: nat)
    ensures k < l ==> Base(bs, k) + bs <= Base(bs, l)
    ensures Base(bs, k + 1) == Base(bs, k) + bs
  {
    if k < l {
      MulAtLeast(l - k, bs);
      assert (l - k) * bs == l * bs - k * bs;
    }
  }

  lemma NumFacts(bs: Size, j: nat)
    ensures Base(bs, Num(bs, j)) <= j < Base(bs, Num(bs, j)) + bs
    ensures j % bs == j - Base(bs, Num(bs, j))
  {
  }

  lemma NumUnique(bs: Size, j: nat, k: nat)
    requires Base(bs, k) <= j < Base(bs, k) + bs
    ensures Num(bs, j) == k
  {
    ModUnique(j, bs, k, j - k * bs);
  }

  /** Indices and their blocks are in the same order. */
  lemma NumOrder(bs: Size, i: nat, j: nat)
    ensures i <= j ==> Num(bs, i) <= Num(bs, j)
    ensures Num(bs, i) < Num(bs, j) ==> i < j
  {
    hide Num, Base;
    NumFacts(bs, i);
    NumFacts(bs, j);
    BaseOrder(bs, Num(bs, j), Num(bs, i));
    BaseOrder(bs, Num(bs, i), Num(bs, j));
  }

  lemma BlocksFacts(bs: Size, j: nat)
    ensures j <= Base(bs, Blocks(bs, j)) < j + bs
    ensures j > 0 ==> Blocks(bs, j) == Num(bs, j - 1) + 1
    ensures j == 0 ==> Blocks(bs, j) == 0
  {
    NumFacts(bs, j + bs - 1);
    if j > 0 {
      assert j + bs - 1 == (j - 1) + bs;
      NumFacts(bs, j - 1);
      BaseOrder(bs, Num(bs, j - 1), 0);
      NumUnique(bs, j + bs - 1, Num(bs, j - 1) + 1);
    } else {
      ModUnique(bs - 1, bs, 0, bs - 1);
    }
  }

  lemma BlocksOrder(bs: Size, i: nat, j: nat)
    requires i <= j
    ensures Blocks(bs, i) <= Blocks(bs, j)
  {
    BlocksFacts(bs, i);
    BlocksFacts(bs, j);
    if i > 0 { NumOrder(bs, i - 1, j - 1); }
  }

  lemma PublishedBlock(bs: Size, j: nat, tail: nat)
    requires j < tail
    ensures Num(bs, j) < Blocks(bs, tail)
  {
    hide Num, Blocks;
    BlocksFacts(bs, tail);
    NumOrder(bs, j, tail - 1);
  }

  /** How often an element was received for index `j`. */
  function Times(received: seq<(nat, int)>, j: nat): nat {
    if received == [] then 0
    else Times(received[..|received| - 1], j) + if received[|received| - 1].0 == j then 1 else 0
  }

  lemma TimesAppended(received: seq<(nat, int)>, r: (nat, int), j: nat)
    ensures Times(received + [r], j) == Times(received, j) + if r.0 == j then 1 else 0
  {
    assert (received + [r])[..|received|] == received;
  }
}
