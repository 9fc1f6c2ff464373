module ExplicitIndex {
  /**
   The block index of the explicit producer: a producer that enqueues elements one at a
   time keeps its blocks in a circular list, takes the oldest again once its flags say
   that it is empty, and notes every block in a ring of entries through which any number
   of consumers find the blocks of the indices they claimed.

   Blocks are numbered: block `k` holds the indices from `k * bs` on, and the base
   `k * bs` of an index entry is written `k`. The element enqueued at index `j` is
   represented by `j`. Consumers claim only published indices, which the dequeue protocol
   ensures. Blocks have a flag per element.
   */

  import opened Wrappers
  import opened ThreadCounting
  import opened IndexBlocks

  /** The block of an entry is `None` before it is written for the first time. */
  datatype Entry = Entry(base: nat, block: Option<nat>)

  /**
   Block `k` belongs at position `(k + off) % size`; `hi` counts the blocks that were
   published when a larger header took over. The program stores neither.
   */
  datatype Header = Header(size: Size, front: nat, entries: seq<Option<Entry>>, off: int, hi: nat)

  /** `Pool` stands for the free list and the initial pool, `Elsewhere` for the other producers. */
  datatype Place = Pool | Elsewhere | Listed(k: nat)

  datatype Block = Block(flags: seq<bool>, slots: seq<int>, next: nat, place: Place)

  datatype Step =
    | LoadIndex
    | LoadFront(h: nat)
    | LoadBase(h: nat, pos: nat)
    | LoadBlock(h: nat, idx: nat)
    | Reading(h: nat, idx: nat, b: nat, c: nat)
    | Flagging(h: nat, idx: nat, b: nat, done: nat)

  /**
   The claimed indices from `next` up to `last`, of which `Flagging` has set the flags of the last `done` of the
   chunk.
   */
  datatype Pc =
    | Idle
    | Busy(next: nat, last: nat, step: Step)
    | Crashed                     // an entry, or a block in it, that was never written was used

  datatype Producer =
    | Resting
    | Checking(i: nat)            // whether the flags of the block ahead are all set
    | NeedRoom
    | Requisition
    | StoreBase
    | StoreBlock
    | StoreFront
    | Construct
    | Publish

  /**
   `first` and `window` say which block each number has: `window[i]` is the block of number
   `first + i`. The program stores of them only the size of the window, as
   `pr_blockIndexSlotsUsed`, and the newest block, as `tailBlock`.
   */
  datatype State = State(
    bs: Size, headers: seq<Header>, prFront: nat, slotsUsed: nat, tailBlock: Option<nat>, blocks: seq<Block>,
    first: nat, window: seq<nat>, head: nat, tail: nat, producer: Producer, threads: seq<Pc>,
    received: seq<(nat, int)>)
  {
    function Go(t: Tid, p: Pc): State
      requires t < |threads|
    {
      this.(threads := threads[t := p])
    }

    function To(p: Producer): State { this.(producer := p) }

    /** How many block numbers are in use. */
    function Numbers(): nat { first + |window| }
  }

  const NoHeader := Header(1, 0, [None], 0, 0)

  const NoBlock := Block([], [], 0, Elsewhere)

  function Hdr(hs: seq<Header>, h: nat): Header { Nth(hs, h, NoHeader) }

  function Latest(hs: seq<Header>): nat { if hs == [] then 0 else |hs| - 1 }

  function Cur(hs: seq<Header>): Header { Hdr(hs, Latest(hs)) }

  function BlockAt(s: State, b: nat): Block { Nth(s.blocks, b, NoBlock) }

  function EntryAt(h: Header, q: nat): Option<Entry> { Nth(h.entries, q, None) }

  /** The position of block `k`. */
  function Pos(h: Header, k: int): (q: nat)
    ensures q < h.size
  {
    (k + h.off) % h.size
  }

  /** The flag of an index; flags are in the reverse order of the elements. */
  function Flag(bs: Size, j: nat): nat { bs - 1 - j % bs }

  // ---------------------------------------------------------------------------
  // Consumers
  // ---------------------------------------------------------------------------

  function Advance(next: nat, last: nat, size: Size, h: nat, idx: nat): Pc {
    if next == last then Idle else Busy(next, last, LoadBlock(h, (idx + 1) % size))
  }

  function Consume(s: State, t: Tid): State
    requires t < |s.threads| && s.threads[t].Busy?
  {
    var Busy(next, last, step) := s.threads[t];
    match step
    case LoadIndex => s.Go(t, Busy(next, last, LoadFront(Latest(s.headers))))
    case LoadFront(h) => s.Go(t, Busy(next, last, LoadBase(h, Hdr(s.headers, h).front)))
    case LoadBase(h, pos) =>
      var hdr := Hdr(s.headers, h);
      (match EntryAt(hdr, pos)
       case None => s.Go(t, Crashed)
       case Some(e) => s.Go(t, Busy(next, last, LoadBlock(h, SlotFor(hdr.size, pos, Num(s.bs, next), e.base)))))
    case LoadBlock(h, idx) =>
      (match EntryAt(Hdr(s.headers, h), idx)
       case None => s.Go(t, Crashed)
       case Some(e) =>
         if e.block.None? then s.Go(t, Crashed) else s.Go(t, Busy(next, last, Reading(h, idx, e.block.value, next))))
    case Reading(h, idx, b, c) =>
      var more := c + 1 < ChunkEnd(s.bs, next, last);
      s.(received := s.received + [(c, Nth(BlockAt(s, b).slots, c % s.bs, -1))])
      .Go(t, Busy(next, last, if more then Reading(h, idx, b, c + 1) else Flagging(h, idx, b, 0)))
    case Flagging(h, idx, b, done) =>
      var end := ChunkEnd(s.bs, next, last);
      var j := Max(0, end - 1 - done);
      SetFlag(s, b, Flag(s.bs, j), true)
      .Go(t, if next + done + 1 < end then Busy(next, last, Flagging(h, idx, b, done + 1))
             else Advance(end, last, Hdr(s.headers, h).size, h, idx))
  }

  function SetFlag(s: State, b: nat, i: nat, flag: bool): State {
    var block := BlockAt(s, b);
    s.(blocks := Upd(s.blocks, b, block.(flags := Upd(block.flags, i, flag))))
  }

  // ---------------------------------------------------------------------------
  // The producer
  // ---------------------------------------------------------------------------

  /** The block behind the newest in the circular list: the oldest. */
  function Ahead(s: State): nat { if s.tailBlock.None? then 0 else BlockAt(s, s.tailBlock.value).next }

  function Reset(s: State, b: nat): Block { BlockAt(s, b).(flags := seq(s.bs, i => false)) }

  /** The block ahead becomes the newest again. */
  function Reuse(s: State): State {
    var b := Ahead(s);
    s.(tailBlock := Some(b), blocks := Upd(s.blocks, b, Reset(s, b).(place := Listed(s.Numbers()))),
       first := s.first + 1, window := if s.window == [] then [] else s.window[1..] + [s.window[0]])
    .To(StoreBase)
  }

  /** A requisitioned block goes into the list behind the newest one. */
  function Link(s: State, b: nat): State
    requires b <= |s.blocks|
  {
    var block := if b < |s.blocks| then Reset(s, b) else Block(seq(s.bs, i => false), seq(s.bs, i => -1), 0, Pool);
    var behind := if b < |s.blocks| then s.blocks[b + 1..] else [];
    var blocks := s.blocks[..b] + [block.(place := Listed(s.Numbers()))] + behind;
    var linked := match s.tailBlock
                  case None => Upd(blocks, b, Nth(blocks, b, NoBlock).(next := b))
                  case Some(tail) =>
                    var put := Upd(blocks, b, Nth(blocks, b, NoBlock).(next := Nth(blocks, tail, NoBlock).next));
                    Upd(put, tail, Nth(put, tail, NoBlock).(next := b));
    s.(tailBlock := Some(b), blocks := linked, slotsUsed := s.slotsUsed + 1, window := s.window + [b]).To(StoreBase)
  }

  /** The entries that `new_block_index` copies, from the oldest in use on. */
  function GrownEntry(h: Header, prFront: nat, slotsUsed: nat, i: int): Option<Entry> {
    if i < slotsUsed then EntryAt(h, (prFront - slotsUsed + i) % h.size) else None
  }

  function Grown(h: Header, prFront: nat, slotsUsed: nat, first: nat): Header {
    Header(2 * h.size, if slotsUsed == 0 then 0 else slotsUsed - 1,
           seq(2 * h.size, i => GrownEntry(h, prFront, slotsUsed, i)), 0 - first, 0)
  }

  function Grow(s: State): State {
    if s.headers == [] then s
    else
      s.(headers := s.headers[|s.headers| - 1 := Cur(s.headers).(hi := Blocks(s.bs, s.tail))]
                    + [Grown(Cur(s.headers), s.prFront, s.slotsUsed, s.first)],
         prFront := s.slotsUsed)
      .To(Requisition)
  }

  function SetCur(hs: seq<Header>, h: Header): seq<Header> { if hs == [] then hs else hs[|hs| - 1 := h] }

  function TailBlock(s: State): nat { if s.tailBlock.None? then 0 else s.tailBlock.value }

  /** The entry at `pr_blockIndexFront`, whose fields are stored one after the other. */
  function OldEntry(s: State): Entry {
    match EntryAt(Cur(s.headers), s.prFront)
    case None => Entry(0, None)
    case Some(e) => e
  }

  function PutEntry(s: State, e: Entry): State {
    var cur := Cur(s.headers);
    s.(headers := SetCur(s.headers, cur.(entries := Upd(cur.entries, s.prFront, Some(e)))))
  }

  function Produce(s: State): State
    requires !s.producer.Resting?
  {
    var cur := Cur(s.headers);
    match s.producer
    case Checking(i) =>
      if s.tailBlock.None? || !Nth(BlockAt(s, Ahead(s)).flags, i, false) then s.To(NeedRoom)
      else if i + 1 < s.bs then s.To(Checking(i + 1))
      else Reuse(s)
    case NeedRoom => if s.slotsUsed == cur.size then Grow(s) else s.To(Requisition)
    case Requisition => s.To(Resting)
    case StoreBase => PutEntry(s, Entry(Num(s.bs, s.tail), OldEntry(s).block)).To(StoreBlock)
    case StoreBlock => PutEntry(s, Entry(OldEntry(s).base, Some(TailBlock(s)))).To(StoreFront)
    case StoreFront =>
      s.(headers := SetCur(s.headers, cur.(front := s.prFront)), prFront := (s.prFront + 1) % cur.size).To(Construct)
    case Construct =>
      var b := TailBlock(s);
      var block := BlockAt(s, b);
      s.(blocks := Upd(s.blocks, b, block.(slots := Upd(block.slots, s.tail % s.bs, s.tail)))).To(Publish)
    case Publish => s.(tail := s.tail + 1).To(Resting)
  }

  // ---------------------------------------------------------------------------
  // Runs
  // ---------------------------------------------------------------------------

  datatype Action =
    | Enqueue
    | Full                            // the sub-queue may not grow, or no index can be allocated
    | Obtain(b: nat)                  // a block from the pool, or a newly allocated one
    | Produces                        // at `Requisition`: there is no block
    | Claim(t: Tid, n: nat)           // `headIndex.fetch_add(n)`
    | Consumes(t: Tid)
    | Other(b: nat, block: Block)     // what the rest of the queue does with blocks that are not this producer's

  predicate Enabled(s: State, a: Action) {
    match a
    case Enqueue => s.producer.Resting?
    case Full => s.producer.NeedRoom?
    case Obtain(b) => s.producer.Requisition? && b <= |s.blocks| && (b < |s.blocks| ==> s.blocks[b].place.Pool?)
    case Produces => !s.producer.Resting?
    case Claim(t, n) => t < |s.threads| && s.threads[t].Idle? && n > 0 && s.head + n <= s.tail
    case Consumes(t) => t < |s.threads| && s.threads[t].Busy?
    case Other(b, block) =>
      && b < |s.blocks| && !s.blocks[b].place.Listed? && !block.place.Listed?
      && |block.slots| == s.bs && |block.flags| == s.bs
  }

  function Apply(s: State, a: Action): State
    requires Enabled(s, a)
  {
    match a
    case Enqueue => s.To(if s.tail % s.bs == 0 then Checking(0) else Construct)
    case Full => s.To(Resting)
    case Obtain(b) => Link(s, b)
    case Produces => Produce(s)
    case Claim(t, n) => s.(head := s.head + n).Go(t, Busy(s.head, s.head + n, LoadIndex))
    case Consumes(t) => Consume(s, t)
    case Other(b, block) => s.(blocks := s.blocks[b := block])
  }

  /** A new producer with its first header, whose `front` is not meant to be read yet. */
  predicate Init(s: State) {
    && |s.headers| == 1
    && var h := s.headers[0];
    && h == Header(h.size, h.front, seq(h.size, i => None), 0, 0)
    && s.prFront == 0 && s.slotsUsed == 0 && s.tailBlock == None && s.first == 0 && s.window == []
    && s.head == 0 && s.tail == 0 && s.producer.Resting? && s.received == []
    && (forall b | 0 <= b < |s.blocks| :: !s.blocks[b].place.Listed? && |s.blocks[b].slots| == s.bs
         && |s.blocks[b].flags| == s.bs)
    && forall t | 0 <= t < |s.threads| :: s.threads[t].Idle?
  }

  ghost predicate Succeeds(s: State, s': State) {
    exists a :: Enabled(s, a) && s' == Apply(s, a)
  }

  ghost predicate IsRun(run: seq<State>) {
    && run != [] && Init(run[0])
    && forall i | 0 <= i < |run| - 1 :: Succeeds(run[i], run[i + 1])
  }
}
