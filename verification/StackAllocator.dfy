module StackAllocator {
  /**
   The stack allocator of the C runtime, with and without its check for frees out of order.
   Positions count from the beginning of the memory it is given, whose address is `address`;
   with the check, every block is followed by a tag that holds its size.
   */

  import opened Wrappers
  import opened ByteStrings
  import opened ModArithmetic
  import opened WrappingArithmetic

  const Tag: nat := 0xabcd1234

  const TagBytes := 4

  const Alignment := 16

  datatype Error = NoMemory | BadFree

  /** A block that a client owns: where it begins, and its size without padding and tag. */
  datatype Block = Block(at: nat, size: nat)

  // ---------------------------------------------------------------------------
  // Sizes and tags
  // ---------------------------------------------------------------------------

  /** The bytes reserved behind a block so that its size is a multiple of the alignment. */
  function Padding(size: nat): nat { (Alignment - size) % Alignment }

  function Total(size: nat, check: bool): nat { size + Padding(size) + if check then TagBytes else 0 }

  lemma PaddedSize(size: nat)
    ensures (size + Padding(size)) % Alignment == 0
  {
  }

  function Xor(x: nat, y: nat): nat {
    if x == 0 then y else if y == 0 then x
    else 2 * Xor(x / 2, y / 2) + if x % 2 != y % 2 then 1 else 0
  }

  lemma {:induction false} XorTwice(x: nat, y: nat)
    ensures Xor(Xor(x, y), y) == x
  {
    if x > 0 && y > 0 {
      XorTwice(x / 2, y / 2);
      var z := Xor(x, y);
      assert z / 2 == Xor(x / 2, y / 2);
      XorHalves(z, y);
    } else {
      XorSelf(y);
    }
  }

  lemma XorHalves(x: nat, y: nat)
    ensures Xor(x, y) == 2 * Xor(x / 2, y / 2) + if x % 2 != y % 2 then 1 else 0
  {
  }

  lemma {:induction false} XorSelf(x: nat)
    ensures Xor(x, x) == 0
  {
    if x > 0 { XorSelf(x / 2); }
  }

  lemma {:induction false} XorFits(w: nat, x: nat, y: nat)
    requires x < Pow2(w) && y < Pow2(w)
    ensures Xor(x, y) < Pow2(w)
  {
    if w > 0 && x > 0 && y > 0 { XorFits(w - 1, x / 2, y / 2); }
  }

  function TagOf(total: nat): seq<byte> { Bytes(Xor(total, Tag), TagBytes) }

  /** The size comes back from its tag, and no other does. */
  lemma TagTellsSize(total: nat)
    requires total < 0x1_0000_0000
    ensures Xor(Value(TagOf(total)), Tag) == total
  {
    assert Pow2(32) == 0x1_0000_0000 == Power256(4) by { Powers(); }
    XorFits(32, total, Tag);
    BytesValue(Xor(total, Tag), 4);
    XorTwice(total, Tag);
  }

  lemma Powers()
    ensures Pow2(32) == 0x1_0000_0000 == Power256(4)
  {
    assert Pow2(8) == 256;
    assert Pow2(16) == 0x1_0000 by { Pow2Adds(8, 8); }
    Pow2Adds(16, 16);
    assert Power256(2) == 0x1_0000;
    assert Power256(4) == 256 * (256 * Power256(2));
  }

  // ---------------------------------------------------------------------------
  // The stack of blocks
  // ---------------------------------------------------------------------------

  /** The blocks lie one behind the other from `start` to `next`. */
  predicate Stacked(blocks: seq<Block>, start: nat, next: nat, check: bool)
    decreases |blocks|
  {
    if blocks == [] then next == start
    else
      var b := blocks[|blocks| - 1];
      next == b.at + Total(b.size, check) && Stacked(blocks[..|blocks| - 1], start, b.at, check)
  }

  /** The tags in memory are those of the blocks. */
  predicate Tagged(mem: seq<byte>, blocks: seq<Block>) {
    forall i | 0 <= i < |blocks| ::
      var end := blocks[i].at + Total(blocks[i].size, true);
      end <= |mem| && mem[end - TagBytes..end] == TagOf(Total(blocks[i].size, true))
  }

  lemma {:induction false} StackedInside(blocks: seq<Block>, start: nat, next: nat, check: bool, i: nat)
    requires Stacked(blocks, start, next, check) && i < |blocks|
    ensures start <= blocks[i].at && blocks[i].at + Total(blocks[i].size, check) <= next
    decreases |blocks|
  {
    var n := |blocks| - 1;
    if i < n {
      StackedInside(blocks[..n], start, blocks[n].at, check, i);
    } else {
      StackedGrows(blocks[..n], start, blocks[n].at, check);
    }
  }

  lemma {:induction false} StackedGrows(blocks: seq<Block>, start: nat, next: nat, check: bool)
    requires Stacked(blocks, start, next, check)
    ensures start <= next
    decreases |blocks|
  {
    if blocks != [] { StackedGrows(blocks[..|blocks| - 1], start, blocks[|blocks| - 1].at, check); }
  }

  /** Blocks do not overlap: each ends, with padding and tag, before the next begins. */
  lemma {:induction false} BlocksAreDisjoint(blocks: seq<Block>, start: nat, next: nat, check: bool, i: nat, j: nat)
    requires Stacked(blocks, start, next, check) && i < j < |blocks|
    ensures blocks[i].at + Total(blocks[i].size, check) <= blocks[j].at
    decreases |blocks|
  {
    var n := |blocks| - 1;
    if j < n {
      BlocksAreDisjoint(blocks[..n], start, blocks[n].at, check, i, j);
    } else {
      StackedInside(blocks[..n], start, blocks[n].at, check, i);
    }
  }

  /**
   Without the check every block is aligned as the first one is; with it the tags shift the
   blocks by four bytes each, so that only every fourth one is aligned.
   */
  lemma {:induction false} AlignmentOfBlocks(blocks: seq<Block>, start: nat, next: nat, check: bool, address: nat,
      i: nat)
    requires Stacked(blocks, start, next, check) && i <= |blocks| && (address + start) % Alignment == 0
    ensures var at := if i < |blocks| then blocks[i].at else next;
            (address + at) % Alignment == if check then (TagBytes * i) % Alignment else 0
    decreases |blocks|
  {
    hide Padding;
    var n := |blocks| - 1;
    if i < n {
      AlignmentOfBlocks(blocks[..n], start, blocks[n].at, check, address, i);
    } else if blocks != [] {
      AlignmentOfBlocks(blocks[..n], start, blocks[n].at, check, address, n);
      assert n == |blocks[..n]|;
      PaddedSize(blocks[n].size);
      NextAligned(address + blocks[n].at, blocks[n].size + Padding(blocks[n].size), n, check);
    }
  }

  lemma NextAligned(a: nat, size: nat, n: nat, check: bool)
    requires a % Alignment == (if check then (TagBytes * n) % Alignment else 0) && size % Alignment == 0
    ensures (a + size + if check then TagBytes else 0) % Alignment == if check then (TagBytes * (n + 1)) % Alignment
            else 0
  {
  }

  lemma StackedPush(blocks: seq<Block>, start: nat, next: nat, check: bool, size: nat)
    requires Stacked(blocks, start, next, check)
    ensures Stacked(blocks + [Block(next, size)], start, next + Total(size, check), check)
  {
    assert (blocks + [Block(next, size)])[..|blocks|] == blocks;
  }

  /** A new block with its tag. */
  lemma TaggedPush(mem: seq<byte>, blocks: seq<Block>, b: Block)
    requires Tagged(mem, blocks)
    requires var end := b.at + Total(b.size, true);
             end <= |mem| && mem[end - TagBytes..end] == TagOf(Total(b.size, true))
    ensures Tagged(mem, blocks + [b])
  {
    hide Padding;
  }

  /** Writes outside of the tags, and everything above the last block, leave the tags. */
  lemma TagsStay(mem: seq<byte>, mem': seq<byte>, blocks: seq<Block>, start: nat, next: nat)
    requires Stacked(blocks, start, next, true) && Tagged(mem, blocks) && |mem'| == |mem| && next <= |mem|
    requires forall i | 0 <= i < next && !InsideBlock(blocks, i) :: mem'[i] == mem[i]
    ensures Tagged(mem', blocks)
  {
    hide Padding;
    forall k | 0 <= k < |blocks|
      ensures var end := blocks[k].at + Total(blocks[k].size, true);
              end <= |mem'| && mem'[end - TagBytes..end] == TagOf(Total(blocks[k].size, true))
    {
      var end := blocks[k].at + Total(blocks[k].size, true);
      StackedInside(blocks, start, next, true, k);
      forall i | end - TagBytes <= i < end ensures mem'[i] == mem[i] { TagIsOutside(blocks, start, next, k, i); }
      assert mem'[end - TagBytes..end] == mem[end - TagBytes..end];
    }
  }

  predicate InsideBlock(blocks: seq<Block>, i: nat) {
    exists k | 0 <= k < |blocks| :: Within(blocks[k], i)
  }

  predicate Within(b: Block, i: nat) { b.at <= i < b.at + b.size }

  lemma TagIsOutside(blocks: seq<Block>, start: nat, next: nat, k: nat, i: nat)
    requires Stacked(blocks, start, next, true) && k < |blocks|
    requires var end := blocks[k].at + Total(blocks[k].size, true); end - TagBytes <= i < end
    ensures !InsideBlock(blocks, i)
  {
    hide Padding;
    forall j | 0 <= j < |blocks| ensures !Within(blocks[j], i) {
      if j < k { BlocksAreDisjoint(blocks, start, next, true, j, k); }
      if k < j { BlocksAreDisjoint(blocks, start, next, true, k, j); }
    }
  }

  lemma LastTag(mem: seq<byte>, blocks: seq<Block>, start: nat, next: nat)
    requires Stacked(blocks, start, next, true) && Tagged(mem, blocks) && blocks != []
    ensures var b := blocks[|blocks| - 1];
            && next == b.at + Total(b.size, true) <= |mem| && mem[next - TagBytes..next] == TagOf(Total(b.size, true))
            && Stacked(blocks[..|blocks| - 1], start, b.at, true) && start <= b.at
            && Tagged(mem, blocks[..|blocks| - 1])
  {
    StackedGrows(blocks[..|blocks| - 1], start, blocks[|blocks| - 1].at, true);
  }

  lemma {:induction false} StackedBelow(blocks: seq<Block>, start: nat, next: nat, check: bool, i: nat)
    requires Stacked(blocks, start, next, check) && i < |blocks|
    ensures Stacked(blocks[..i], start, blocks[i].at, check)
    decreases |blocks|
  {
    var n := |blocks| - 1;
    if i < n {
      StackedBelow(blocks[..n], start, blocks[n].at, check, i);
      assert blocks[..n][..i] == blocks[..i];
    }
  }

  /** The distance to a pointer, in a word of 32 bits, is that to the block exactly for the pointers congruent to it. */
  lemma SizeOfDistance(next: int, at: int, ptr: int)
    requires at <= next < at + 0x1_0000_0000
    ensures (next - ptr) % 0x1_0000_0000 == next - at <==> (ptr - at) % 0x1_0000_0000 == 0
    ensures at - 0x1_0000_0000 < ptr < at + 0x1_0000_0000 ==> ((ptr - at) % 0x1_0000_0000 == 0 <==> ptr == at)
  {
  }

  // ---------------------------------------------------------------------------
  // The allocator
  // ---------------------------------------------------------------------------

  class StackMemoryManager {
    const address: nat
    var memory: array<byte>
    var workspace: nat
    var nextAlloc: int
    ghost var blocks: seq<Block>

    ghost predicate Valid(check: bool)
      reads this, memory
    {
      && memory.Length < 0x1_0000_0000 && workspace <= nextAlloc <= memory.Length
      && (address + workspace) % Alignment == 0
      && Stacked(blocks, workspace, nextAlloc, check)
      && (check ==> Tagged(memory[..], blocks))
    }

    /** `StackMemoryManager_Init`: the workspace begins at the first aligned address. */
    constructor (memory: array<byte>, address: nat)
      requires memory.Length < 0x1_0000_0000 && Padding(address) <= memory.Length
      ensures this.memory == memory && this.address == address && memory[..] == old(memory[..])
      ensures Valid(true) && Valid(false) && blocks == [] && workspace < Alignment
    {
      this.address := address;
      this.memory := memory;
      workspace := (address + (Alignment - 1)) / Alignment * Alignment - address;
      nextAlloc := (address + (Alignment - 1)) / Alignment * Alignment - address;
      blocks := [];
      new;
      assert workspace == Padding(address);
    }

    method Allocate(nbytes: nat, check: bool) returns (r: Result<nat, Error>)
      requires Valid(check)
      modifies this, memory
      ensures Valid(check) && memory == old(memory) && workspace == old(workspace)
      ensures r == if old(nextAlloc) + Total(nbytes, check) <= memory.Length then Ok(old(nextAlloc)) else Err(NoMemory)
      ensures r.Ok? ==> blocks == old(blocks) + [Block(r.value, nbytes)] && nextAlloc == r.value + Total(nbytes, check)
      ensures r.Err? ==> blocks == old(blocks) && nextAlloc == old(nextAlloc) && memory[..] == old(memory[..])
      ensures forall i | 0 <= i < memory.Length && !(r.Ok? && check && nextAlloc - TagBytes <= i < nextAlloc) ::
              memory[i] == old(memory[i])
    {
      hide Padding, Stacked, Tagged, Xor, Bytes, InsideBlock;
      var offset := Padding(nbytes);
      if nextAlloc + nbytes + offset > memory.Length { return Err(NoMemory); }
      var current := nextAlloc;
      var next := nextAlloc + nbytes + offset;
      if check {
        if next + TagBytes > memory.Length { return Err(NoMemory); }
        var total := nbytes + offset + TagBytes;
        StoreTag(next, TagOf(total));
        next := next + TagBytes;
        assert memory[..][next - TagBytes..next] == memory[next - TagBytes..next];
        TagsStay(old(memory[..]), memory[..], blocks, workspace, nextAlloc);
        TaggedPush(memory[..], blocks, Block(nextAlloc, nbytes));
      }
      StackedPush(blocks, workspace, nextAlloc, check, nbytes);
      nextAlloc := next;
      blocks := blocks + [Block(current, nbytes)];
      return Ok(current);
    }

    method StoreTag(at: nat, tag: seq<byte>)
      requires |tag| == TagBytes && at + TagBytes <= memory.Length
      modifies memory
      ensures memory[at..at + TagBytes] == tag
      ensures forall i | 0 <= i < memory.Length && !(at <= i < at + TagBytes) :: memory[i] == old(memory[i])
    {
      memory[at], memory[at + 1], memory[at + 2], memory[at + 3] := tag[0], tag[1], tag[2], tag[3];
    }

    /**
     With the check, and a live block, any pointer is accepted that is the newest live block or differs
     from it by a multiple of 2^32, since the sizes compared are words of 32 bits. Among the pointers into
     the memory that is the newest live block alone, and freeing it takes back what its allocation did; any
     other that is accepted leads out of the memory. Without the check every pointer is accepted, and
     one to a block takes back everything from that block on.
     */
    method Free(ptr: int, check: bool) returns (r: Result<(), Error>)
      requires Valid(check)
      requires check ==> blocks != []
      modifies this
      ensures memory == old(memory) && workspace == old(workspace)
      ensures check ==> (r.Ok? <==> (ptr - old(blocks)[|old(blocks)| - 1].at) % 0x1_0000_0000 == 0)
      ensures check && 0 <= ptr <= memory.Length ==> (r.Ok? <==> ptr == old(blocks)[|old(blocks)| - 1].at)
      ensures check && r.Ok? && 0 <= ptr <= memory.Length ==> Valid(true) && blocks == old(blocks)[..|old(blocks)| - 1]
      ensures r.Err? ==> r.error == BadFree && Valid(check) && blocks == old(blocks) && nextAlloc == old(nextAlloc)
      ensures !check ==> r.Ok?
      ensures r.Ok? ==> nextAlloc == ptr
      ensures !check && (exists i | 0 <= i < |old(blocks)| :: old(blocks)[i].at == ptr) ==>
                && Valid(false)
                && exists i | 0 <= i < |old(blocks)| :: old(blocks)[i].at == ptr && blocks == old(blocks)[..i]
    {
      hide Padding, Stacked, Tagged, Xor, Bytes, TagOf;
      if check {
        ghost var b := blocks[|blocks| - 1];
        LastTag(memory[..], blocks, workspace, nextAlloc);
        assert memory[..][nextAlloc - TagBytes..nextAlloc] == memory[nextAlloc - TagBytes..nextAlloc];
        var tag := Value(memory[nextAlloc - TagBytes..nextAlloc]);
        var actual := (nextAlloc - ptr) % 0x1_0000_0000;
        var expected := Xor(tag, Tag);
        TagTellsSize(Total(b.size, true));
        SizeOfDistance(nextAlloc, b.at, ptr);
        if expected != actual { return Err(BadFree); }
        if 0 <= ptr <= memory.Length { blocks := blocks[..|blocks| - 1]; }
      } else if i :| 0 <= i < |blocks| && blocks[i].at == ptr {
        StackedBelow(blocks, workspace, nextAlloc, false, i);
        StackedInside(blocks, workspace, nextAlloc, false, i);
        blocks := blocks[..i];
      }
      nextAlloc := ptr;
      return Ok(());
    }

    /** A client writes into a block of its own. */
    method Write(i: nat, v: byte, check: bool)
      requires Valid(check) && InsideBlock(blocks, i) && i < memory.Length
      modifies memory
      ensures Valid(check) && memory[i] == v
      ensures forall k | 0 <= k < memory.Length && k != i :: memory[k] == old(memory[k])
    {
      memory[i] := v;
      if check { TagsStay(old(memory[..]), memory[..], blocks, workspace, nextAlloc); }
    }
  }
}
