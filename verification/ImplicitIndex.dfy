module ImplicitIndex {
  /**
   The block index of the implicit producer: one producer enqueues, and any number of
   consumers look up the blocks of the indices they claimed, in a ring of index
   entries that the producer extends, rewinds and replaces by a larger one.

   Blocks are numbered: block `k` holds the indices from `k * bs` on, and the key
   `k * bs` of an index entry is written `Some(k)`, the invalid key `None`. The element
   enqueued at index `j` is represented by `j`. Consumers claim only published
   indices, which the dequeue protocol ensures.
   */

  import opened Wrappers
  import opened ThreadCounting
  import opened IndexBlocks

  datatype Entry = Entry(key: Option<nat>, value: Option<nat>)

  /**
   Entries are shared between headers. Block `k` belongs at position `(k + off) % cap`;
   `hi` counts the blocks that were published when a larger header took over. The
   program stores neither.
   */
  datatype Header = Header(cap: Size, index: seq<nat>, tail: nat, off: int, hi: nat)

  datatype Place = Pool | Elsewhere | Requisitioned | Queued(k: nat)

  /** `Pool` stands for the free list and the initial pool, `Elsewhere` for the other producers. */
  datatype Block = Block(count: nat, slots: seq<int>, place: Place)

  /** What has become of a block number. */
  datatype Stage =
    | Live(b: nat)
    | Emptied(b: nat, t: Tid)     // the last element is gone, `t` has to clear the entry
    | Cleared(b: nat, t: Tid)     // `t` has to return the block
    | Returned
    | Undone(b: nat)              // a failed enqueue has taken it out again
    | Dropped

  datatype Step =
    | LoadHeader
    | LoadTail(h: nat)
    | LoadKey(h: nat, pos: nat)
    | LoadValue(h: nat, idx: nat)
    | Reading(h: nat, idx: nat, b: nat, c: nat)
    | Counting(h: nat, idx: nat, b: nat)
    | Clearing(h: nat, idx: nat, b: nat, k: nat)
    | Freeing(h: nat, idx: nat, b: nat, k: nat)

  /** The claimed indices from `next` up to `last` are not yet counted as dequeued. */
  datatype Pc =
    | Idle
    | Busy(next: nat, last: nat, step: Step)
    | Crashed                     // an invalid key or a null block was used

  /** Enqueuing up to the index `goal`. */
  datatype Producer =
    | Resting
    | Probe(goal: nat)
    | NeedIndex(goal: nat)
    | StoreKey(goal: nat)
    | StoreTail(goal: nat)
    | Requisition(goal: nat)
    | Rewind(goal: nat)
    | ClearSlot(goal: nat)
    | StoreValue(goal: nat, b: nat)
    | Construct(goal: nat, j: nat)
    | Undo(i: nat)
    | UndoRewind(i: nat)
    | UndoFree(i: nat)

  /** `top` is one more than the largest number that was ever written as a key; the program does not store it. */
  datatype State = State(
    bs: Size, entries: seq<Entry>, headers: seq<Header>, top: nat, blocks: seq<Block>, stages: seq<Stage>,
    head: nat, tail: nat, producer: Producer, threads: seq<Pc>,
    received: seq<(nat, int)>, returned: seq<nat>)
  {
    function Go(t: Tid, p: Pc): State
      requires t < |threads|
    {
      this.(threads := threads[t := p])
    }

    function To(p: Producer): State { this.(producer := p) }
  }

  const NoHeader := Header(1, [0], 0, 0, 0)

  const NoBlock := Block(0, [], Elsewhere)

  const NoEntry := Entry(None, None)

  function Hdr(hs: seq<Header>, h: nat): Header { Nth(hs, h, NoHeader) }

  function Latest(hs: seq<Header>): nat { if hs == [] then 0 else |hs| - 1 }

  function Cur(hs: seq<Header>): Header { Hdr(hs, Latest(hs)) }

  function EntryAt(h: Header, es: seq<Entry>, q: nat): Entry { Nth(es, Nth(h.index, q, 0), NoEntry) }

  function PutEntry(h: Header, es: seq<Entry>, q: nat, e: Entry): seq<Entry> { Upd(es, Nth(h.index, q, 0), e) }

  /** The position of block `k`. */
  function Pos(h: Header, k: int): (q: nat)
    ensures q < h.cap
  {
    (k + h.off) % h.cap
  }

  // ---------------------------------------------------------------------------
  // Consumers
  // ---------------------------------------------------------------------------

  /** The next block of the claim, or the end of the call. */
  function Advance(next: nat, last: nat, cap: Size, h: nat, idx: nat): Pc {
    if next == last then Idle else Busy(next, last, LoadValue(h, (idx + 1) % cap))
  }

  function Consume(s: State, t: Tid): State
    requires t < |s.threads| && s.threads[t].Busy?
  {
    var Busy(next, last, step) := s.threads[t];
    match step
    case LoadHeader => s.Go(t, Busy(next, last, LoadTail(Latest(s.headers))))
    case LoadTail(h) => s.Go(t, Busy(next, last, LoadKey(h, Hdr(s.headers, h).tail)))
    case LoadKey(h, pos) =>
      var hdr := Hdr(s.headers, h);
      (match EntryAt(hdr, s.entries, pos).key
       case None => s.Go(t, Crashed)
       case Some(key) => s.Go(t, Busy(next, last, LoadValue(h, SlotFor(hdr.cap, pos, Num(s.bs, next), key)))))
    case LoadValue(h, idx) =>
      (match EntryAt(Hdr(s.headers, h), s.entries, idx).value
       case None => s.Go(t, Crashed)
       case Some(b) => s.Go(t, Busy(next, last, Reading(h, idx, b, next))))
    case Reading(h, idx, b, c) =>
      var x := Nth(Nth(s.blocks, b, NoBlock).slots, c % s.bs, -1);
      var more := c + 1 < ChunkEnd(s.bs, next, last);
      s.(received := s.received + [(c, x)])
      .Go(t, Busy(next, last, if more then Reading(h, idx, b, c + 1) else Counting(h, idx, b)))
    case Counting(h, idx, b) => CountDown(s, t, next, last, h, idx, b)
    case Clearing(h, idx, b, k) =>
      s.(entries := PutEntry(Hdr(s.headers, h), s.entries, idx,
          EntryAt(Hdr(s.headers, h), s.entries, idx).(value := None)),
         stages := Upd(s.stages, k, Cleared(b, t)))
      .Go(t, Busy(next, last, Freeing(h, idx, b, k)))
    case Freeing(h, idx, b, k) =>
      s.(blocks := Upd(s.blocks, b, Nth(s.blocks, b, NoBlock).(place := Pool)),
         stages := Upd(s.stages, k, Returned), returned := s.returned + [k])
      .Go(t, Advance(next, last, Hdr(s.headers, h).cap, h, idx))
  }

  /** `set_many_empty`: whoever counts the last element has to clear and return the block. */
  function CountDown(s: State, t: Tid, next: nat, last: nat, h: nat, idx: nat, b: nat): State
    requires t < |s.threads|
  {
    var k, end, block := Num(s.bs, next), ChunkEnd(s.bs, next, last), Nth(s.blocks, b, NoBlock);
    var count := block.count + Max(end - next, 0);
    var s1 := s.(blocks := Upd(s.blocks, b, block.(count := count)));
    if count == s.bs then
      s1.(stages := Upd(s.stages, k, Emptied(b, t))).Go(t, Busy(end, last, Clearing(h, idx, b, k)))
    else s1.Go(t, Advance(end, last, Hdr(s.headers, h).cap, h, idx))
  }

  // ---------------------------------------------------------------------------
  // The producer
  // ---------------------------------------------------------------------------

  /** The old entries in ring order from behind the tail, then fresh ones numbered from `first` on. */
  function GrownIndex(h: Header, first: nat, i: int): nat {
    if i < h.cap then Nth(h.index, (h.tail + 1 + i) % h.cap, 0) else first + (i - h.cap)
  }

  /** `new_block_index`, when `blocks` blocks have been inserted. */
  function Grown(h: Header, first: nat, blocks: nat): Header {
    Header(2 * h.cap, seq(2 * h.cap, i => GrownIndex(h, first, i)), h.cap - 1, h.cap - blocks, 0)
  }

  function Grow(s: State, goal: nat): State {
    var cur := Cur(s.headers);
    if s.headers == [] then s
    else
      s.(headers := s.headers[|s.headers| - 1 := cur.(hi := Blocks(s.bs, s.tail))]
          + [Grown(cur, |s.entries|, |s.stages|)],
         entries := s.entries + seq(cur.cap, i => NoEntry))
      .To(StoreKey(goal))
  }

  function SetTail(hs: seq<Header>, tail: nat): seq<Header> {
    if hs == [] then hs else hs[|hs| - 1 := hs[|hs| - 1].(tail := tail)]
  }

  /** The slot behind the tail, and the one before it. */
  function After(h: Header): nat { (h.tail + 1) % h.cap }

  function Before(h: Header): nat { (h.tail - 1) % h.cap }

  /** Once the blocks are there the elements are constructed, otherwise the next block is inserted. */
  function NextBlock(s: State, goal: nat): State {
    if |s.stages| < Blocks(s.bs, goal) then s.To(Probe(goal)) else s.To(Construct(goal, s.tail))
  }

  function Produce(s: State): State
    requires !s.producer.Resting?
  {
    var cur := Cur(s.headers);
    match s.producer
    case Probe(goal) =>
      var e := EntryAt(cur, s.entries, After(cur));
      s.To(if e.key.None? || e.value.None? then StoreKey(goal) else NeedIndex(goal))
    case NeedIndex(goal) => Grow(s, goal)
    case StoreKey(goal) =>
      var e := EntryAt(cur, s.entries, After(cur));
      s.(entries := PutEntry(cur, s.entries, After(cur), e.(key := Some(|s.stages|))),
         top := Max(s.top, |s.stages| + 1))
      .To(StoreTail(goal))
    case StoreTail(goal) => s.(headers := SetTail(s.headers, After(cur))).To(Requisition(goal))
    case Requisition(goal) => s.To(Rewind(goal))
    case Rewind(goal) => s.(headers := SetTail(s.headers, Before(cur))).To(ClearSlot(goal))
    case ClearSlot(_) =>
      var e := EntryAt(cur, s.entries, After(cur));
      s.(entries := PutEntry(cur, s.entries, After(cur), e.(value := None))).To(Undo(Blocks(s.bs, s.tail)))
    case StoreValue(goal, b) =>
      var e := EntryAt(cur, s.entries, cur.tail);
      NextBlock(s.(entries := PutEntry(cur, s.entries, cur.tail, e.(value := Some(b))),
                   blocks := Upd(s.blocks, b, Nth(s.blocks, b, NoBlock).(place := Queued(|s.stages|))),
                   stages := s.stages + [Live(b)]),
                goal)
    case Construct(goal, j) =>
      if j >= goal then s.(tail := goal).To(Resting)
      else
        var b := BlockOf(Nth(s.stages, Num(s.bs, j), Dropped));
        var block := Nth(s.blocks, b, NoBlock);
        s.(blocks := Upd(s.blocks, b, block.(slots := Upd(block.slots, j % s.bs, j)))).To(Construct(goal, j + 1))
    case Undo(i) =>
      if i >= |s.stages| then s.To(UndoFree(Blocks(s.bs, s.tail)))
      else
        var q := UndoSlot(cur, s.entries, i);
        s.(entries := PutEntry(cur, s.entries, q, EntryAt(cur, s.entries, q).(value := None)),
           stages := s.stages[i := Undone(BlockOf(s.stages[i]))])
        .To(UndoRewind(i))
    case UndoRewind(i) => s.(headers := SetTail(s.headers, Before(cur))).To(Undo(i + 1))
    case UndoFree(i) =>
      if i >= |s.stages| then s.(stages := s.stages[..Min(|s.stages|, Blocks(s.bs, s.tail))]).To(Resting)
      else
        var b := BlockOf(s.stages[i]);
        s.(blocks := Upd(s.blocks, b, Nth(s.blocks, b, NoBlock).(place := Pool)), stages := s.stages[i := Dropped])
        .To(UndoFree(i + 1))
  }

  /** The lookup of block `i` that the producer makes while it undoes its insertions. */
  function UndoSlot(cur: Header, es: seq<Entry>, i: nat): nat {
    match EntryAt(cur, es, cur.tail).key
    case None => 0
    case Some(key) => SlotFor(cur.cap, cur.tail, i, key)
  }

  function BlockOf(stage: Stage): nat {
    match stage
    case Live(b) => b
    case Emptied(b, _) => b
    case Cleared(b, _) => b
    case Undone(b) => b
    case Returned => 0
    case Dropped => 0
  }

  /** A requisitioned block starts with no element counted as dequeued. */
  function Requisitions(s: State, goal: nat, b: nat): State
    requires b <= |s.blocks|
  {
    var slots := if b < |s.blocks| then s.blocks[b].slots else seq(s.bs, i => -1);
    s.(blocks := s.blocks[..b] + [Block(0, slots, Requisitioned)] + if b < |s.blocks| then s.blocks[b + 1..] else [])
    .To(StoreValue(goal, b))
  }

  // ---------------------------------------------------------------------------
  // Runs
  // ---------------------------------------------------------------------------

  datatype Action =
    | Enqueue(n: nat)
    | Full                            // the sub-queue may not grow, or no index or block can be allocated
    | Obtain(b: nat)                  // a block from the pool, or a newly allocated one
    | Produces
    | Claim(t: Tid, n: nat)           // `headIndex.fetch_add(n)`
    | Consumes(t: Tid)
    | Other(b: nat, block: Block)     // what the rest of the queue does with blocks that are not this producer's

  predicate Foreign(p: Place) { p.Pool? || p.Elsewhere? }

  predicate Enabled(s: State, a: Action) {
    match a
    case Enqueue(_) => s.producer.Resting?
    case Full => s.producer.Probe? || s.producer.NeedIndex?
    case Obtain(b) => s.producer.Requisition? && b <= |s.blocks| && (b < |s.blocks| ==> s.blocks[b].place.Pool?)
    case Produces => !s.producer.Resting?
    case Claim(t, n) => t < |s.threads| && s.threads[t].Idle? && n > 0 && s.head + n <= s.tail
    case Consumes(t) => t < |s.threads| && s.threads[t].Busy?
    case Other(b, block) =>
      b < |s.blocks| && Foreign(s.blocks[b].place) && Foreign(block.place) && |block.slots| == s.bs
  }

  function Apply(s: State, a: Action): State
    requires Enabled(s, a)
  {
    match a
    case Enqueue(n) => NextBlock(s, s.tail + n)
    case Full => s.To(Undo(Blocks(s.bs, s.tail)))
    case Obtain(b) => Requisitions(s, s.producer.goal, b)
    case Produces => Produce(s)
    case Claim(t, n) => s.(head := s.head + n).Go(t, Busy(s.head, s.head + n, LoadHeader))
    case Consumes(t) => Consume(s, t)
    case Other(b, block) => s.(blocks := s.blocks[b := block])
  }

  /** A new producer, with the first header of `new_block_index`; blocks may already be anywhere. */
  predicate Init(s: State) {
    && |s.headers| == 1
    && var h := s.headers[0];
    && h == Header(h.cap, seq(h.cap, i => i), h.cap - 1, 0, 0)
    && s.entries == seq(h.cap, i => NoEntry)
    && s.stages == [] && s.top == 0 && s.head == 0 && s.tail == 0 && s.producer.Resting? && s.received == []
    && s.returned == []
    && (forall b | 0 <= b < |s.blocks| :: Foreign(s.blocks[b].place) && |s.blocks[b].slots| == s.bs)
    && forall t | 0 <= t < |s.threads| :: s.threads[t].Idle?
  }

  ghost predicate Succeeds(s: State, s': State) {
    exists a :: Enabled(s, a) && s' == Apply(s, a)
  }

  ghost predicate IsRun(run: seq<State>) {
    && run != [] && Init(run[0])
    && forall i | 0 <= i < |run| - 1 :: Succeeds(run[i], run[i + 1])
  }
}
