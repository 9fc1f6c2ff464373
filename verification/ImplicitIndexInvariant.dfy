/**
 What holds of the implicit producer's index, and how changes to the ring keep it:
 writing a key, writing or clearing a block, moving the tail, and moving into a ring of
 twice the size. Consumers may still hold any of the older headers.
 */
module ImplicitIndexInvariant {
  import opened Wrappers
  import opened ThreadCounting
  import opened ModArithmetic
  import opened IndexBlocks
  import opened ImplicitIndex

  // ---------------------------------------------------------------------------
  // The ring of entries
  // ---------------------------------------------------------------------------

  predicate Shape(h: Header, n: nat) {
    |h.index| == h.cap && h.tail < h.cap && forall q | 0 <= q < h.cap :: h.index[q] < n
  }

  /** An entry that two headers share stands at corresponding positions. */
  predicate Agrees(cur: Header, h: Header) {
    && cur.cap % h.cap == 0
    && forall q, r | 0 <= q < |cur.index| && 0 <= r < |h.index| && cur.index[q] == h.index[r]
         :: (q - cur.off + h.off) % h.cap == r
  }

  /** Around the ring of every header the valid keys stand where their block belongs. */
  predicate KeysFit(h: Header, es: seq<Entry>) {
    forall q | 0 <= q < |h.index| && EntryAt(h, es, q).key.Some? :: Pos(h, EntryAt(h, es, q).key.value) == q
  }

  predicate HeaderOk(cur: Header, h: Header, es: seq<Entry>) {
    Shape(h, |es|) && Agrees(cur, h) && KeysFit(h, es)
  }

  predicate Ring(hs: seq<Header>, es: seq<Entry>) {
    hs != [] && forall i | 0 <= i < |hs| :: HeaderOk(Cur(hs), hs[i], es)
  }

  predicate InIndex(stage: Stage) { stage.Live? || stage.Emptied? }

  /** Block `k` can be found through header `i`. */
  predicate Known(hs: seq<Header>, i: nat, k: nat) { i < |hs| && (i == |hs| - 1 || k < hs[i].hi) }

  /** The entry of block `k` in header `h` is intact, and it is the one that the current header has for it. */
  predicate PlacedIn(cur: Header, h: Header, es: seq<Entry>, k: nat, b: nat) {
    EntryAt(h, es, Pos(h, k)) == Entry(Some(k), Some(b)) && Nth(h.index, Pos(h, k), 0) == Nth(cur.index, Pos(cur, k), 0)
  }

  /** The entries of blocks in the index are never overwritten. */
  predicate Placed(hs: seq<Header>, es: seq<Entry>, stages: seq<Stage>) {
    forall i, k | 0 <= i < |hs| && 0 <= k < |stages| && InIndex(stages[k]) && Known(hs, i, k)
      :: PlacedIn(Cur(hs), hs[i], es, k, stages[k].b)
  }

  predicate Keyed(h: Header, es: seq<Entry>, j: int) { EntryAt(h, es, Pos(h, j)).key.Some? }

  predicate KeysKnown(cur: Header, es: seq<Entry>, stages: seq<Stage>, published: nat) {
    && (forall j | published <= j < |stages| :: Keyed(cur, es, j))
    && forall k, j | 0 <= k <= j < |stages| && stages[k].Live? :: Keyed(cur, es, j)
  }

  /** No block in the index is further behind than the ring is long. */
  predicate Windowed(cap: Size, stages: seq<Stage>) {
    forall k | 0 <= k < |stages| && InIndex(stages[k]) :: |stages| <= k + cap
  }

  /** Headers that were replaced are only asked for blocks that had been published by then. */
  predicate Dated(hs: seq<Header>, published: nat) { forall i | 0 <= i < |hs| - 1 :: hs[i].hi <= published }

  /** All keys in the ring are of the last round; without a key there is no block. */
  predicate KeysRecent(cur: Header, es: seq<Entry>, top: nat) {
    forall q | 0 <= q < |cur.index| :: Recent(EntryAt(cur, es, q), cur.cap, top)
  }

  predicate Recent(e: Entry, cap: Size, top: nat) {
    if e.key.Some? then e.key.value < top <= e.key.value + cap else e.value.None?
  }

  predicate Rewound(stages: seq<Stage>, k: nat) { k < |stages| ==> stages[k].Undone? || stages[k].Dropped? }

  /** The keys of blocks that were taken out again are still there. */
  predicate Leftovers(cur: Header, es: seq<Entry>, stages: seq<Stage>, top: nat) {
    forall k: nat | k < top && Rewound(stages, k) :: EntryAt(cur, es, Pos(cur, k)) == Entry(Some(k), None)
  }

  predicate IndexOk(hs: seq<Header>, es: seq<Entry>, stages: seq<Stage>, published: nat, top: nat) {
    && Ring(hs, es) && Placed(hs, es, stages) && KeysKnown(Cur(hs), es, stages, published)
    && Windowed(Cur(hs).cap, stages) && Dated(hs, published)
    && KeysRecent(Cur(hs), es, top) && Leftovers(Cur(hs), es, stages, top) && |stages| <= top
  }

  // ---------------------------------------------------------------------------
  // Blocks and what consumers still owe them
  // ---------------------------------------------------------------------------

  /** How much of block `k` a thread has claimed and not yet counted. */
  function Overlap(bs: Size, k: nat, p: Pc): nat {
    if p.Busy? then Length(Max(p.next, Base(bs, k)), Min(p.last, Base(bs, k) + bs)) else 0
  }

  function OverlapOf(bs: Size, k: nat): (f: Pc -> nat)
    ensures forall p :: f(p) == Overlap(bs, k, p)
  {
    p => Overlap(bs, k, p)
  }

  ghost function Outstanding(ts: seq<Pc>, bs: Size, k: nat): nat { Sum(ts, OverlapOf(bs, k)) }

  function Unclaimed(bs: Size, k: nat, head: nat): nat { Length(Max(head, Base(bs, k)), Base(bs, k) + bs) }

  /** The constructed elements of block `k` are in its slots. */
  predicate Filled(bs: Size, k: nat, slots: seq<int>, built: nat) {
    |slots| == bs && forall i | 0 <= i < bs && Base(bs, k) + i < built :: slots[i] == Base(bs, k) + i
  }

  /** The block is this producer's, for number `k`. */
  predicate Mine(blocks: seq<Block>, k: nat, stage: Stage) {
    stage.Returned? || stage.Dropped? || (BlockOf(stage) < |blocks| && blocks[BlockOf(stage)].place == Queued(k))
  }

  /** Counted, claimed and unclaimed elements make up a live block; of any other all elements are counted. */
  ghost predicate Counted(bs: Size, blocks: seq<Block>, outstanding: nat, unclaimed: nat, stage: Stage) {
    match stage
    case Live(b) => b < |blocks| && blocks[b].count < bs && blocks[b].count + outstanding + unclaimed == bs
    case Undone(_) => true
    case Dropped => true
    case Emptied(_, _) => outstanding == 0 && unclaimed == 0
    case Cleared(_, _) => outstanding == 0 && unclaimed == 0
    case Returned => outstanding == 0 && unclaimed == 0
  }

  predicate AtClearing(p: Pc, b: nat, k: nat) { p.Busy? && p.step.Clearing? && p.step.b == b && p.step.k == k }

  predicate AtFreeing(p: Pc, b: nat, k: nat) { p.Busy? && p.step.Freeing? && p.step.b == b && p.step.k == k }

  predicate Attended(ts: seq<Pc>, k: nat, stage: Stage) {
    && (stage.Emptied? ==> stage.t < |ts| && AtClearing(ts[stage.t], stage.b, k))
    && (stage.Cleared? ==> stage.t < |ts| && AtFreeing(ts[stage.t], stage.b, k))
  }

  function Built(s: State): nat { if s.producer.Construct? then s.producer.j else s.tail }

  ghost predicate StageOk(s: State, k: nat)
    requires k < |s.stages|
  {
    && Mine(s.blocks, k, s.stages[k])
    && Counted(s.bs, s.blocks, Outstanding(s.threads, s.bs, k), Unclaimed(s.bs, k, s.head), s.stages[k])
    && (s.stages[k].Live? ==> Filled(s.bs, k, Nth(s.blocks, s.stages[k].b, NoBlock).slots, Built(s)))
    && Attended(s.threads, k, s.stages[k])
    && (s.stages[k].Returned? <==> k in s.returned)
    && (k < Published(s) ==> !s.stages[k].Undone? && !s.stages[k].Dropped?)
  }

  function Published(s: State): nat { Blocks(s.bs, s.tail) }

  // ---------------------------------------------------------------------------
  // Threads
  // ---------------------------------------------------------------------------

  predicate Finds(hs: seq<Header>, bs: Size, h: nat, last: nat) {
    last > 0 && Known(hs, h, Num(bs, last - 1))
  }

  /** What a thread knows of the index. */
  predicate IndexKnown(hs: seq<Header>, es: seq<Entry>, bs: Size, next: nat, last: nat, step: Step) {
    match step
    case LoadHeader => next < last
    case LoadTail(h) =>
      next < last && Finds(hs, bs, h, last) && (h == |hs| - 1 || EntryAt(hs[h], es, hs[h].tail).key.Some?)
    case LoadKey(h, pos) =>
      next < last && Finds(hs, bs, h, last) && pos < hs[h].cap && EntryAt(hs[h], es, pos).key.Some?
    case LoadValue(h, idx) => next < last && Finds(hs, bs, h, last) && idx == Pos(hs[h], Num(bs, next))
    case Reading(h, idx, b, c) =>
      next < last && Finds(hs, bs, h, last) && idx == Pos(hs[h], Num(bs, next)) && next <= c < ChunkEnd(bs, next, last)
    case Counting(h, idx, b) => next < last && Finds(hs, bs, h, last) && idx == Pos(hs[h], Num(bs, next))
    case Clearing(h, idx, b, k) => Finds(hs, bs, h, last) && LeftBlock(hs[h], bs, next, last, idx, k)
    case Freeing(h, idx, b, k) => Finds(hs, bs, h, last) && LeftBlock(hs[h], bs, next, last, idx, k)
  }

  /** The claim has been counted up to the end of block `k`. */
  predicate LeftBlock(h: Header, bs: Size, next: nat, last: nat, idx: nat, k: nat)
    requires last > 0
  {
    k <= Num(bs, last - 1) && idx == Pos(h, k) && (next < last ==> Num(bs, next) == k + 1)
  }

  /** What a thread knows of the block it deals with. */
  predicate StageKnown(stages: seq<Stage>, bs: Size, t: Tid, next: nat, step: Step) {
    && (step.Reading? || step.Counting? ==> Num(bs, next) < |stages| && stages[Num(bs, next)] == Live(step.b))
    && (step.Clearing? ==> step.k < |stages| && stages[step.k] == Emptied(step.b, t))
    && (step.Freeing? ==> step.k < |stages| && stages[step.k] == Cleared(step.b, t))
  }

  predicate ThreadOk(s: State, t: Tid, p: Pc) {
    match p
    case Idle => true
    case Crashed => false
    case Busy(next, last, step) =>
      && next <= last <= s.tail
      && IndexKnown(s.headers, s.entries, s.bs, next, last, step)
      && StageKnown(s.stages, s.bs, t, next, step)
  }

  // ---------------------------------------------------------------------------
  // The producer
  // ---------------------------------------------------------------------------

  /** The block number at whose position the tail of the index stands. */
  function TailNum(s: State): int {
    var n := |s.stages|;
    match s.producer
    case Requisition(_) => n
    case Rewind(_) => n
    case StoreValue(_, _) => n
    case Undo(i) => n - 1 - (i - Published(s))
    case UndoRewind(i) => n - 1 - (i - Published(s))
    case UndoFree(_) => Published(s) - 1
    case Resting => n - 1
    case Probe(_) => n - 1
    case NeedIndex(_) => n - 1
    case StoreKey(_) => n - 1
    case StoreTail(_) => n - 1
    case ClearSlot(_) => n - 1
    case Construct(_, _) => n - 1
  }

  /** The blocks of an enqueue that is not yet published. */
  predicate Pending(p: Producer, stages: seq<Stage>, published: nat) {
    published <= |stages| &&
    match p
    case Resting => |stages| == published
    case Undo(i) => published <= i && Mixed(stages, published, i)
    case UndoRewind(i) => published <= i < |stages| && Mixed(stages, published, i + 1)
    case UndoFree(i) =>
      && published <= i
      && (forall k | published <= k < |stages| :: if k < i then stages[k].Dropped? else stages[k].Undone?)
    case _ => Mixed(stages, published, published)
  }

  /** Blocks below `i` are undone, the others live. */
  predicate Mixed(stages: seq<Stage>, published: nat, i: nat) {
    i <= |stages| && forall k | published <= k < |stages| :: if k < i then stages[k].Undone? else stages[k].Live?
  }

  predicate Adding(s: State, goal: nat) { s.tail <= goal && |s.stages| < Blocks(s.bs, goal) }

  /** The slot for the next block carries its key. */
  predicate SlotTaken(s: State) {
    EntryAt(Cur(s.headers), s.entries, Pos(Cur(s.headers), |s.stages|)).key == Some(|s.stages|)
  }

  predicate SlotFree(s: State) {
    EntryAt(Cur(s.headers), s.entries, Pos(Cur(s.headers), |s.stages|)).value.None?
  }

  predicate ProducerOk(s: State) {
    && Pending(s.producer, s.stages, Published(s))
    && Cur(s.headers).tail == Pos(Cur(s.headers), TailNum(s))
    && match s.producer
       case Resting => true
       case Probe(goal) => Adding(s, goal)
       case NeedIndex(goal) => Adding(s, goal) && s.top == |s.stages|
       case StoreKey(goal) => Adding(s, goal) && SlotFree(s)
       case StoreTail(goal) => Adding(s, goal) && SlotTaken(s)
       case Requisition(goal) => Adding(s, goal) && SlotTaken(s)
       case Rewind(goal) => Adding(s, goal) && SlotTaken(s)
       case ClearSlot(goal) => Adding(s, goal) && SlotTaken(s)
       case StoreValue(goal, b) =>
         && Adding(s, goal) && SlotTaken(s)
         && b < |s.blocks| && s.blocks[b].place.Requisitioned? && s.blocks[b].count == 0
       case Construct(goal, j) => s.tail <= j <= goal && |s.stages| == Blocks(s.bs, goal)
       case Undo(_) => true
       case UndoRewind(_) => true
       case UndoFree(_) => true
  }

  predicate Faithful(received: seq<(nat, int)>) { forall r <- received :: r.0 == r.1 }

  predicate Distinct(ks: seq<nat>) { forall i, j | 0 <= i < j < |ks| :: ks[i] != ks[j] }

  ghost predicate Inv(s: State) {
    && IndexOk(s.headers, s.entries, s.stages, Published(s), s.top)
    && (forall k | 0 <= k < |s.stages| :: StageOk(s, k))
    && (forall t | 0 <= t < |s.threads| :: ThreadOk(s, t, s.threads[t]))
    && (forall b | 0 <= b < |s.blocks| :: |s.blocks[b].slots| == s.bs)
    && ProducerOk(s)
    && s.head <= s.tail
    && Faithful(s.received) && Distinct(s.returned) && forall i | 0 <= i < |s.returned| :: s.returned[i] < Published(s)
  }

  // ---------------------------------------------------------------------------
  // Steps on the ring
  // ---------------------------------------------------------------------------

  /** Block `k` at position `Pos(cur, k)` is at `Pos(h, k)` in every header that has the entry. */
  lemma SharedPosition(cur: Header, h: Header, n: nat, k: int, r: nat)
    requires Shape(cur, n) && Shape(h, n) && Agrees(cur, h)
    requires r < h.cap && cur.index[Pos(cur, k)] == h.index[r]
    ensures Pos(h, k) == r
  {
    ModThrough(k + cur.off, h.off - cur.off, cur.cap, h.cap);
  }

  /** Entries are distinct. */
  lemma PositionOf(cur: Header, n: nat, k: int, q: nat)
    requires Shape(cur, n) && Agrees(cur, cur) && q < cur.cap && cur.index[Pos(cur, k)] == cur.index[q]
    ensures Pos(cur, k) == q
  {
    SharedPosition(cur, cur, n, k, q);
  }

  lemma CurIsLast(hs: seq<Header>, es: seq<Entry>)
    requires Ring(hs, es)
    ensures Cur(hs) == hs[|hs| - 1] && HeaderOk(Cur(hs), Cur(hs), es)
  {
  }

  /** An entry of the current ring gets a new value, and keeps its key or gets that of the block which belongs there. */
  lemma RingPut(hs: seq<Header>, es: seq<Entry>, k: nat, e: Entry)
    requires Ring(hs, es)
    requires e.key == Some(k) || e.key == EntryAt(Cur(hs), es, Pos(Cur(hs), k)).key
    ensures Ring(hs, PutEntry(Cur(hs), es, Pos(Cur(hs), k), e))
  {
    var cur := Cur(hs);
    var es' := PutEntry(cur, es, Pos(cur, k), e);
    CurIsLast(hs, es);
    forall i | 0 <= i < |hs| ensures HeaderOk(cur, hs[i], es') {
      assert HeaderOk(cur, hs[i], es);
      HeaderPut(cur, hs[i], es, k, e);
    }
  }

  lemma HeaderPut(cur: Header, h: Header, es: seq<Entry>, k: nat, e: Entry)
    requires HeaderOk(cur, h, es) && Shape(cur, |es|)
    requires e.key == Some(k) || e.key == EntryAt(cur, es, Pos(cur, k)).key
    ensures HeaderOk(cur, h, PutEntry(cur, es, Pos(cur, k), e))
  {
    hide Pos;
    var id := cur.index[Pos(cur, k)];
    var es' := PutEntry(cur, es, Pos(cur, k), e);
    forall q | 0 <= q < |h.index| && EntryAt(h, es', q).key.Some?
      ensures Pos(h, EntryAt(h, es', q).key.value) == q
    {
      if h.index[q] == id {
        SharedPosition(cur, h, |es|, k, q);
        assert EntryAt(h, es, q) == es[id] && EntryAt(h, es', q) == e;
      } else {
        assert EntryAt(h, es', q) == EntryAt(h, es, q);
      }
    }
  }

  /** Writing to an entry that is no block's leaves the blocks where they are. */
  lemma PlacedPut(hs: seq<Header>, es: seq<Entry>, stages: seq<Stage>, h: Header, q: nat, e: Entry)
    requires Ring(hs, es) && Placed(hs, es, stages) && h in hs && q < h.cap
    requires var o := EntryAt(h, es, q);
             o.key.None? || o.value.None? || |stages| <= o.key.value || !InIndex(stages[o.key.value])
    ensures Placed(hs, PutEntry(h, es, q, e), stages)
  {
    hide Pos;
    var es' := PutEntry(h, es, q, e);
    forall i, k | 0 <= i < |hs| && 0 <= k < |stages| && InIndex(stages[k]) && Known(hs, i, k)
      ensures PlacedIn(Cur(hs), hs[i], es', k, stages[k].b)
    {
      assert PlacedIn(Cur(hs), hs[i], es, k, stages[k].b);
    }
  }

  lemma KeysKnownPut(cur: Header, es: seq<Entry>, stages: seq<Stage>, published: nat, id: nat, e: Entry)
    requires KeysKnown(cur, es, stages, published) && id < |es|
    requires e.key.Some? || e.key == es[id].key
    ensures KeysKnown(cur, es[id := e], stages, published)
  {
    hide Keyed;
    var es' := es[id := e];
    forall j | published <= j < |stages| ensures Keyed(cur, es', j) { KeyedPut(cur, es, id, e, j); }
    forall k, j | 0 <= k <= j < |stages| && stages[k].Live? ensures Keyed(cur, es', j) {
      KeyedPut(cur, es, id, e, j);
    }
  }

  lemma KeyedPut(cur: Header, es: seq<Entry>, id: nat, e: Entry, j: int)
    requires Keyed(cur, es, j) && id < |es|
    requires e.key.Some? || e.key == es[id].key
    ensures Keyed(cur, es[id := e], j)
  {
    hide Pos;
  }

  /** Moving the tail of the current header. */
  lemma TailMoves(hs: seq<Header>, es: seq<Entry>, stages: seq<Stage>, published: nat, top: nat, tail: nat)
    requires IndexOk(hs, es, stages, published, top) && tail < Cur(hs).cap
    ensures IndexOk(SetTail(hs, tail), es, stages, published, top)
    ensures var hs' := SetTail(hs, tail);
            Cur(hs') == Cur(hs).(tail := tail) && |hs'| == |hs| && forall i | 0 <= i < |hs| - 1 :: hs'[i] == hs[i]
  {
    var hs', cur, cur' := SetTail(hs, tail), Cur(hs), Cur(hs).(tail := tail);
    CurIsLast(hs, es);
    assert Cur(hs') == cur';
    RingTail(hs, es, tail);
    PlacedTail(hs, es, stages, tail);
    hide Ring, Placed, Pos;
    forall j | Keyed(cur, es, j) ensures Keyed(cur', es, j) { TailIrrelevant(cur, tail, j); }
    forall q | 0 <= q < |cur.index| ensures EntryAt(cur', es, q) == EntryAt(cur, es, q) { }
    forall k: nat | k < top && Rewound(stages, k) ensures EntryAt(cur', es, Pos(cur', k)) == Entry(Some(k), None) {
      TailIrrelevant(cur, tail, k);
      assert EntryAt(cur, es, Pos(cur, k)) == Entry(Some(k), None);
    }
  }

  lemma TailIrrelevant(h: Header, tail: nat, k: int)
    ensures Pos(h.(tail := tail), k) == Pos(h, k)
  {
  }

  lemma RingTail(hs: seq<Header>, es: seq<Entry>, tail: nat)
    requires Ring(hs, es) && tail < Cur(hs).cap
    ensures Ring(SetTail(hs, tail), es)
  {
    hide EntryAt;
    var hs', cur, cur' := SetTail(hs, tail), Cur(hs), Cur(hs).(tail := tail);
    forall i | 0 <= i < |hs'| ensures HeaderOk(cur', hs'[i], es) {
      assert HeaderOk(cur, hs[i], es);
      HeaderTail(cur, hs[i], es, tail);
      if i == |hs| - 1 { HeaderTail'(cur', hs[i], es, tail); }
    }
  }

  lemma HeaderTail(cur: Header, h: Header, es: seq<Entry>, tail: nat)
    requires HeaderOk(cur, h, es)
    ensures HeaderOk(cur.(tail := tail), h, es)
  {
  }

  lemma HeaderTail'(cur: Header, h: Header, es: seq<Entry>, tail: nat)
    requires HeaderOk(cur, h, es) && tail < h.cap
    ensures HeaderOk(cur, h.(tail := tail), es)
  {
    forall q | 0 <= q < |h.index| ensures EntryAt(h.(tail := tail), es, q) == EntryAt(h, es, q) { }
  }

  lemma PlacedTail(hs: seq<Header>, es: seq<Entry>, stages: seq<Stage>, tail: nat)
    requires Ring(hs, es) && Placed(hs, es, stages)
    ensures Placed(SetTail(hs, tail), es, stages)
  {
    hide Ring, Pos;
    var hs' := SetTail(hs, tail);
    forall i, k | 0 <= i < |hs'| && 0 <= k < |stages| && InIndex(stages[k]) && Known(hs', i, k)
      ensures PlacedIn(Cur(hs'), hs'[i], es, k, stages[k].b)
    {
      assert Known(hs, i, k);
      assert PlacedIn(Cur(hs), hs[i], es, k, stages[k].b);
      TailIrrelevant(hs[i], tail, k);
      TailIrrelevant(Cur(hs), tail, k);
    }
  }

  // ---------------------------------------------------------------------------
  // A larger ring
  // ---------------------------------------------------------------------------

  /** Where position `i` of the larger ring was in the old one. */
  lemma GrownPosition(cur: Header, n: nat, blocks: nat, i: nat)
    requires Shape(cur, n) && cur.tail == Pos(cur, blocks - 1) && i < cur.cap
    ensures Grown(cur, n, blocks).index[i] == cur.index[Pos(cur, i + blocks - cur.cap)]
  {
    GrownSlot(cur, blocks, i);
  }

  lemma GrownSlot(cur: Header, blocks: nat, i: nat)
    requires cur.tail == Pos(cur, blocks - 1)
    ensures (cur.tail + 1 + i) % cur.cap == Pos(cur, i + blocks - cur.cap)
  {
    var x := blocks - 1 + cur.off;
    ModAdd(x, 1 + i, cur.cap);
    ModShift(x + 1 + i, -1, cur.cap);
  }

  /** The blocks of the last round keep their entries. */
  lemma GrownKeeps(cur: Header, n: nat, blocks: nat, k: nat)
    requires Shape(cur, n) && cur.tail == Pos(cur, blocks - 1) && k < blocks <= k + cur.cap
    ensures var g := Grown(cur, n, blocks);
            Pos(g, k) < cur.cap && g.index[Pos(g, k)] == cur.index[Pos(cur, k)]
  {
    var i := k - blocks + cur.cap;
    ModUnique(i, 2 * cur.cap, 0, i);
    GrownPosition(cur, n, blocks, i);
  }

  lemma GrownAgrees(cur: Header, h: Header, n: nat, blocks: nat)
    requires Shape(cur, n) && Shape(h, n) && Agrees(cur, h) && cur.tail == Pos(cur, blocks - 1)
    ensures Agrees(Grown(cur, n, blocks), h)
  {
    var g := Grown(cur, n, blocks);
    assert 2 * cur.cap == (2 * (cur.cap / h.cap)) * h.cap;
    Divides(2 * cur.cap, h.cap, 2 * (cur.cap / h.cap));
    forall q, r | 0 <= q < |g.index| && 0 <= r < |h.index| && g.index[q] == h.index[r]
      ensures (q - g.off + h.off) % h.cap == r
    {
      if q < cur.cap {
        var k := q + blocks - cur.cap;
        GrownPosition(cur, n, blocks, q);
        SharedPosition(cur, h, n, k, r);
        assert q - g.off == k;
      }
    }
  }

  lemma GrownAgreesWithItself(cur: Header, n: nat, blocks: nat)
    requires Shape(cur, n) && Agrees(cur, cur) && cur.tail == Pos(cur, blocks - 1)
    ensures Agrees(Grown(cur, n, blocks), Grown(cur, n, blocks))
  {
    var g := Grown(cur, n, blocks);
    forall q, r | 0 <= q < |g.index| && 0 <= r < |g.index| && g.index[q] == g.index[r]
      ensures (q - g.off + g.off) % g.cap == r
    {
      if q < cur.cap && r < cur.cap {
        GrownPosition(cur, n, blocks, q);
        GrownPosition(cur, n, blocks, r);
        var k, l := q + blocks - cur.cap, r + blocks - cur.cap;
        PositionOf(cur, n, k, Pos(cur, l));
        ModEqual(k + cur.off, l + cur.off, cur.cap);
      }
      ModUnique(q, g.cap, 0, q);
    }
  }

  /** The headers and entries after `new_block_index`. */
  function MoreHeaders(hs: seq<Header>, es: seq<Entry>, blocks: nat, published: nat): seq<Header>
    requires hs != []
  {
    hs[|hs| - 1 := Cur(hs).(hi := published)] + [Grown(Cur(hs), |es|, blocks)]
  }

  function MoreEntries(es: seq<Entry>, n: nat): seq<Entry> { es + seq(n, i => NoEntry) }

  lemma EntriesStay(h: Header, es: seq<Entry>, n: nat, q: nat)
    requires Shape(h, |es|) && q < h.cap
    ensures EntryAt(h, MoreEntries(es, n), q) == EntryAt(h, es, q)
  {
  }

  lemma GrownFits(cur: Header, es: seq<Entry>, blocks: nat)
    requires HeaderOk(cur, cur, es) && KeysRecent(cur, es, blocks) && cur.tail == Pos(cur, blocks - 1)
    ensures var g, es' := Grown(cur, |es|, blocks), MoreEntries(es, cur.cap);
            Shape(g, |es'|) && KeysFit(g, es') && KeysRecent(g, es', blocks)
  {
    var g, es' := Grown(cur, |es|, blocks), MoreEntries(es, cur.cap);
    forall q | 0 <= q < g.cap
      ensures g.index[q] < |es'|
      ensures var key := EntryAt(g, es', q).key;
              key.Some? ==> Pos(g, key.value) == q
      ensures Recent(EntryAt(g, es', q), g.cap, blocks)
    {
      if q < cur.cap {
        var p := Pos(cur, q + blocks - cur.cap);
        GrownPosition(cur, |es|, blocks, q);
        EntriesStay(cur, es, cur.cap, p);
        var key := EntryAt(cur, es, p).key;
        assert Recent(EntryAt(cur, es, p), cur.cap, blocks);
        if key.Some? {
          ModEqual(key.value + cur.off, q + blocks - cur.cap + cur.off, cur.cap);
          ModUnique(q, g.cap, 0, q);
        }
      } else {
        assert EntryAt(g, es', q) == NoEntry;
      }
    }
  }

  predicate Intact(stages: seq<Stage>) { forall k: nat | k < |stages| :: !Rewound(stages, k) }

  /** The stages of an enqueue that is in the middle of inserting blocks. */
  predicate Inserting(stages: seq<Stage>, published: nat) {
    published <= |stages| && Mixed(stages, published, published) && Intact(stages)
  }

  lemma IndexGrows(hs: seq<Header>, es: seq<Entry>, stages: seq<Stage>, published: nat)
    requires IndexOk(hs, es, stages, published, |stages|) && Inserting(stages, published)
    requires Cur(hs).tail == Pos(Cur(hs), |stages| - 1)
    ensures IndexOk(MoreHeaders(hs, es, |stages|, published), MoreEntries(es, Cur(hs).cap), stages, published, |stages|)
  {
    var cur, n := Cur(hs), |stages|;
    var hs', es' := MoreHeaders(hs, es, n, published), MoreEntries(es, cur.cap);
    CurIsLast(hs, es);
    GrownFits(cur, es, n);
    RingGrows(hs, es, n, published);
    PlacedGrows(hs, es, stages, published);
    KeysKnownGrows(cur, es, stages, published);
    hide Ring, Placed, Pos, Grown, KeysKnown;
    assert Cur(hs') == Grown(cur, |es|, n);
    assert Dated(hs', published);
    assert forall k: nat | k < n :: !Rewound(stages, k);
  }

  lemma KeysKnownGrows(cur: Header, es: seq<Entry>, stages: seq<Stage>, published: nat)
    requires HeaderOk(cur, cur, es) && cur.tail == Pos(cur, |stages| - 1)
    requires KeysKnown(cur, es, stages, published) && Windowed(cur.cap, stages) && Inserting(stages, published)
    ensures KeysKnown(Grown(cur, |es|, |stages|), MoreEntries(es, cur.cap), stages, published)
  {
    hide Pos, Grown, HeaderOk;
    var g, es' := Grown(cur, |es|, |stages|), MoreEntries(es, cur.cap);
    forall j | published <= j < |stages| ensures Keyed(g, es', j) {
      assert Keyed(cur, es, j) && InIndex(stages[j]);
      GrownEntry(cur, es, |stages|, j);
    }
    forall k, j | 0 <= k <= j < |stages| && stages[k].Live? ensures Keyed(g, es', j) {
      assert Keyed(cur, es, j) && InIndex(stages[k]);
      GrownEntry(cur, es, |stages|, j);
    }
  }

  lemma GrownEntry(cur: Header, es: seq<Entry>, blocks: nat, k: nat)
    requires HeaderOk(cur, cur, es) && cur.tail == Pos(cur, blocks - 1) && k < blocks <= k + cur.cap
    ensures var g := Grown(cur, |es|, blocks);
            && EntryAt(g, MoreEntries(es, cur.cap), Pos(g, k)) == EntryAt(cur, es, Pos(cur, k))
            && Nth(g.index, Pos(g, k), 0) == Nth(cur.index, Pos(cur, k), 0)
  {
    GrownKeeps(cur, |es|, blocks, k);
    EntriesStay(cur, es, cur.cap, Pos(cur, k));
  }

  lemma HeaderGrows(cur: Header, h: Header, es: seq<Entry>, blocks: nat)
    requires HeaderOk(cur, h, es) && Shape(cur, |es|) && cur.tail == Pos(cur, blocks - 1)
    ensures HeaderOk(Grown(cur, |es|, blocks), h, MoreEntries(es, cur.cap))
  {
    GrownAgrees(cur, h, |es|, blocks);
    hide Grown, Pos, Agrees;
    forall q | 0 <= q < h.cap ensures EntryAt(h, MoreEntries(es, cur.cap), q) == EntryAt(h, es, q) {
      EntriesStay(h, es, cur.cap, q);
    }
  }

  lemma HeaderDated(cur: Header, h: Header, es: seq<Entry>, hi: nat)
    requires HeaderOk(cur, h, es)
    ensures HeaderOk(cur, h.(hi := hi), es)
  {
    forall q | 0 <= q < |h.index| ensures EntryAt(h.(hi := hi), es, q) == EntryAt(h, es, q) { }
  }

  lemma RingGrows(hs: seq<Header>, es: seq<Entry>, blocks: nat, published: nat)
    requires Ring(hs, es) && KeysRecent(Cur(hs), es, blocks) && Cur(hs).tail == Pos(Cur(hs), blocks - 1)
    ensures Ring(MoreHeaders(hs, es, blocks, published), MoreEntries(es, Cur(hs).cap))
  {
    var cur := Cur(hs);
    var hs', es', g := MoreHeaders(hs, es, blocks, published), MoreEntries(es, cur.cap), Grown(cur, |es|, blocks);
    CurIsLast(hs, es);
    assert Cur(hs') == g;
    forall i | 0 <= i < |hs'| ensures HeaderOk(g, hs'[i], es') {
      if i < |hs| {
        assert HeaderOk(cur, hs[i], es);
        HeaderGrows(cur, hs[i], es, blocks);
        HeaderDated(g, hs[i], es', published);
      } else {
        GrownFits(cur, es, blocks);
        GrownAgreesWithItself(cur, |es|, blocks);
      }
    }
  }

  lemma PlacedGrows(hs: seq<Header>, es: seq<Entry>, stages: seq<Stage>, published: nat)
    requires Ring(hs, es) && Placed(hs, es, stages) && Windowed(Cur(hs).cap, stages)
    requires Cur(hs).tail == Pos(Cur(hs), |stages| - 1)
    ensures Placed(MoreHeaders(hs, es, |stages|, published), MoreEntries(es, Cur(hs).cap), stages)
  {
    hide Pos, Grown;
    var cur := Cur(hs);
    var hs', es' := MoreHeaders(hs, es, |stages|, published), MoreEntries(es, cur.cap);
    CurIsLast(hs, es);
    forall i, k | 0 <= i < |hs'| && 0 <= k < |stages| && InIndex(stages[k]) && Known(hs', i, k)
      ensures PlacedIn(Cur(hs'), hs'[i], es', k, stages[k].b)
    {
      assert Known(hs, |hs| - 1, k);
      assert PlacedIn(cur, cur, es, k, stages[k].b);
      GrownEntry(cur, es, |stages|, k);
      if i < |hs| {
        assert Known(hs, i, k) && HeaderOk(cur, hs[i], es);
        EntriesStay(hs[i], es, cur.cap, Pos(hs[i], k));
        assert PlacedIn(cur, hs[i], es, k, stages[k].b);
        DateIrrelevant(hs[i], published, k);
      }
    }
  }

  lemma DateIrrelevant(h: Header, hi: nat, k: int)
    ensures Pos(h.(hi := hi), k) == Pos(h, k)
  {
  }

  // ---------------------------------------------------------------------------
  // Steps on the whole index
  // ---------------------------------------------------------------------------

  /** The slot of block `k` is that of an entry with key `Some(k)`, of which there is one. */
  lemma OneSlot(cur: Header, es: seq<Entry>, k: nat, q: nat)
    requires HeaderOk(cur, cur, es) && q < cur.cap && EntryAt(cur, es, q).key == Some(k)
    ensures q == Pos(cur, k)
  {
  }

  lemma PutElsewhere(cur: Header, es: seq<Entry>, q: nat, e: Entry, p: nat)
    requires HeaderOk(cur, cur, es) && q < cur.cap && p < cur.cap
    ensures EntryAt(cur, PutEntry(cur, es, q, e), p) == if p == q then e else EntryAt(cur, es, p)
  {
    ModUnique(p, cur.cap, 0, p);
  }

  lemma SamePosition(h: Header, k: int)
    ensures Pos(h, k + h.cap) == Pos(h, k)
  {
    ModShift(k + h.off, 1, h.cap);
  }

  lemma KeyStored(hs: seq<Header>, es: seq<Entry>, stages: seq<Stage>, published: nat, top: nat)
    requires IndexOk(hs, es, stages, published, top) && Intact(stages)
    requires EntryAt(Cur(hs), es, Pos(Cur(hs), |stages|)).value.None?
    ensures var n, cur := |stages|, Cur(hs);
            var es' := PutEntry(cur, es, Pos(cur, n), EntryAt(cur, es, Pos(cur, n)).(key := Some(n)));
            IndexOk(hs, es', stages, published, Max(top, n + 1)) && EntryAt(cur, es', Pos(cur, n)).key == Some(n)
  {
    var n, cur := |stages|, Cur(hs);
    var q := Pos(cur, n);
    var e := EntryAt(cur, es, q);
    var es', top' := PutEntry(cur, es, q, e.(key := Some(n))), Max(top, n + 1);
    CurIsLast(hs, es);
    RingPut(hs, es, n, e.(key := Some(n)));
    PlacedPut(hs, es, stages, cur, q, e.(key := Some(n)));
    KeysKnownPut(cur, es, stages, published, cur.index[q], e.(key := Some(n)));
    KeyStaysRecent(cur, es, stages, top);
    KeyLeftBehind(cur, es, stages, top);
  }

  lemma KeyStaysRecent(cur: Header, es: seq<Entry>, stages: seq<Stage>, top: nat)
    requires HeaderOk(cur, cur, es) && KeysRecent(cur, es, top) && Leftovers(cur, es, stages, top) && |stages| <= top
    ensures var n := |stages|;
            var e := EntryAt(cur, es, Pos(cur, n)).(key := Some(n));
            KeysRecent(cur, PutEntry(cur, es, Pos(cur, n), e), Max(top, n + 1))
  {
    assert Shape(cur, |es|);
    hide HeaderOk, Pos;
    var n, top' := |stages|, Max(top, |stages| + 1);
    var q := Pos(cur, n);
    var e := EntryAt(cur, es, q).(key := Some(n));
    var es' := PutEntry(cur, es, q, e);
    assert Recent(EntryAt(cur, es, q), cur.cap, top);
    if n < top { assert Rewound(stages, n); }
    forall p | 0 <= p < cur.cap ensures Recent(EntryAt(cur, es', p), cur.cap, top') {
      PutElsewhere(cur, es, q, e, p);
      assert Recent(EntryAt(cur, es, p), cur.cap, top);
      var key := EntryAt(cur, es, p).key;
      if key.Some? && key.value + cur.cap == n {
        OneSlot(cur, es, key.value, p);
        SamePosition(cur, key.value);
      }
    }
  }

  lemma KeyLeftBehind(cur: Header, es: seq<Entry>, stages: seq<Stage>, top: nat)
    requires HeaderOk(cur, cur, es) && Leftovers(cur, es, stages, top) && |stages| <= top && Intact(stages)
    requires EntryAt(cur, es, Pos(cur, |stages|)).value.None?
    ensures var n := |stages|;
            var e := EntryAt(cur, es, Pos(cur, n)).(key := Some(n));
            Leftovers(cur, PutEntry(cur, es, Pos(cur, n), e), stages, Max(top, n + 1))
  {
    assert Shape(cur, |es|);
    hide HeaderOk, Pos;
    var n := |stages|;
    var q := Pos(cur, n);
    var e := EntryAt(cur, es, q).(key := Some(n));
    var es' := PutEntry(cur, es, q, e);
    if n < top { assert Rewound(stages, n); }
    forall k: nat | k < Max(top, n + 1) && Rewound(stages, k)
      ensures EntryAt(cur, es', Pos(cur, k)) == Entry(Some(k), None)
    {
      PutElsewhere(cur, es, q, e, Pos(cur, k));
    }
  }

  lemma BlockStored(hs: seq<Header>, es: seq<Entry>, stages: seq<Stage>, published: nat, top: nat, b: nat)
    requires IndexOk(hs, es, stages, published, top) && published <= |stages|
    requires EntryAt(Cur(hs), es, Pos(Cur(hs), |stages|)).key == Some(|stages|)
    ensures var n, cur := |stages|, Cur(hs);
            var es' := PutEntry(cur, es, Pos(cur, n), EntryAt(cur, es, Pos(cur, n)).(value := Some(b)));
            IndexOk(hs, es', stages + [Live(b)], published, top)
  {
    var n, cur, stages' := |stages|, Cur(hs), stages + [Live(b)];
    var q := Pos(cur, n);
    var e := EntryAt(cur, es, q).(value := Some(b));
    var es' := PutEntry(cur, es, q, e);
    CurIsLast(hs, es);
    RingPut(hs, es, n, e);
    PlacedPut(hs, es, stages, cur, q, e);
    KeysKnownPut(cur, es, stages, published, cur.index[q], e);
    assert Recent(EntryAt(cur, es, q), cur.cap, top);
    WindowMoves(hs, es, stages);
    NewBlockPlaced(hs, es', stages, published, b);
    hide Ring, Windowed, Pos, Placed;
    assert Keyed(cur, es', n);
    forall p | 0 <= p < cur.cap ensures Recent(EntryAt(cur, es', p), cur.cap, top) {
      PutElsewhere(cur, es, q, e, p);
      assert Recent(EntryAt(cur, es, p), cur.cap, top);
    }
    forall k: nat | k < top && Rewound(stages', k) ensures EntryAt(cur, es', Pos(cur, k)) == Entry(Some(k), None) {
      assert Rewound(stages, k) && k != n;
      PutElsewhere(cur, es, q, e, Pos(cur, k));
    }
  }

  lemma WindowMoves(hs: seq<Header>, es: seq<Entry>, stages: seq<Stage>)
    requires Ring(hs, es) && Placed(hs, es, stages) && Windowed(Cur(hs).cap, stages)
    requires EntryAt(Cur(hs), es, Pos(Cur(hs), |stages|)).key == Some(|stages|)
    ensures forall k | 0 <= k < |stages| && InIndex(stages[k]) :: |stages| + 1 <= k + Cur(hs).cap
  {
    hide Pos;
    var cur := Cur(hs);
    forall k | 0 <= k < |stages| && InIndex(stages[k]) ensures |stages| + 1 <= k + cur.cap {
      assert Known(hs, |hs| - 1, k);
      assert PlacedIn(cur, hs[|hs| - 1], es, k, stages[k].b);
      if |stages| == k + cur.cap { SamePosition(cur, k); }
    }
  }

  lemma NewBlockPlaced(hs: seq<Header>, es: seq<Entry>, stages: seq<Stage>, published: nat, b: nat)
    requires Ring(hs, es) && Placed(hs, es, stages) && Dated(hs, published) && published <= |stages|
    requires EntryAt(Cur(hs), es, Pos(Cur(hs), |stages|)) == Entry(Some(|stages|), Some(b))
    ensures Placed(hs, es, stages + [Live(b)])
  {
    hide Pos;
    var n, stages' := |stages|, stages + [Live(b)];
    forall i, k | 0 <= i < |hs| && 0 <= k < |stages'| && InIndex(stages'[k]) && Known(hs, i, k)
      ensures PlacedIn(Cur(hs), hs[i], es, k, stages'[k].b)
    {
      if k < n {
        assert stages'[k] == stages[k];
        assert PlacedIn(Cur(hs), hs[i], es, k, stages[k].b);
      } else {
        assert i == |hs| - 1;
      }
    }
  }

  /** A block leaves the index: through any header that knows it, the one entry it has is cleared. */
  lemma BlockCleared(hs: seq<Header>, es: seq<Entry>, stages: seq<Stage>, published: nat, top: nat, i: nat, k: nat,
      stage: Stage)
    requires IndexOk(hs, es, stages, published, top) && k < |stages| && InIndex(stages[k]) && Known(hs, i, k)
    requires stage.Cleared? || stage.Undone?
    ensures var e := EntryAt(hs[i], es, Pos(hs[i], k)).(value := None);
            IndexOk(hs, PutEntry(hs[i], es, Pos(hs[i], k), e), stages[k := stage], published, top)
  {
    var cur, b, stages' := Cur(hs), stages[k].b, stages[k := stage];
    var q, e := Pos(cur, k), Entry(Some(k), None);
    var es' := PutEntry(cur, es, q, e);
    CurIsLast(hs, es);
    assert PlacedIn(cur, hs[i], es, k, b);
    assert Known(hs, |hs| - 1, k) && PlacedIn(cur, hs[|hs| - 1], es, k, b);
    RingPut(hs, es, k, e);
    OthersPlaced(hs, es, stages, k, stage);
    KeysKnownPut(cur, es, stages, published, cur.index[q], e);
    hide Ring, Pos, Placed;
    forall p | 0 <= p < cur.cap ensures Recent(EntryAt(cur, es', p), cur.cap, top) {
      PutElsewhere(cur, es, q, e, p);
      assert Recent(EntryAt(cur, es, p), cur.cap, top);
    }
    forall l: nat | l < top && Rewound(stages', l) ensures EntryAt(cur, es', Pos(cur, l)) == Entry(Some(l), None) {
      assert l != k ==> Rewound(stages, l);
      PutElsewhere(cur, es, q, e, Pos(cur, l));
    }
  }

  lemma OthersPlaced(hs: seq<Header>, es: seq<Entry>, stages: seq<Stage>, k: nat, stage: Stage)
    requires Ring(hs, es) && Placed(hs, es, stages) && k < |stages| && !InIndex(stage)
    requires EntryAt(Cur(hs), es, Pos(Cur(hs), k)).key == Some(k)
    ensures Placed(hs, PutEntry(Cur(hs), es, Pos(Cur(hs), k), Entry(Some(k), None)), stages[k := stage])
  {
    hide Pos;
    var stages', es' := stages[k := stage], PutEntry(Cur(hs), es, Pos(Cur(hs), k), Entry(Some(k), None));
    forall i, l | 0 <= i < |hs| && 0 <= l < |stages'| && InIndex(stages'[l]) && Known(hs, i, l)
      ensures PlacedIn(Cur(hs), hs[i], es', l, stages'[l].b)
    {
      assert l != k && stages'[l] == stages[l];
      assert PlacedIn(Cur(hs), hs[i], es, l, stages[l].b);
    }
  }

  /** Changes of stage that do not concern the index. */
  lemma StageMoves(hs: seq<Header>, es: seq<Entry>, stages: seq<Stage>, published: nat, top: nat, k: nat, stage: Stage)
    requires IndexOk(hs, es, stages, published, top) && k < |stages|
    requires (stages[k].Live? && stage.Emptied? && stage.b == stages[k].b)
          || (stages[k].Cleared? && stage.Returned?) || (stages[k].Undone? && stage.Dropped?)
    ensures IndexOk(hs, es, stages[k := stage], published, top)
  {
    hide Ring, Pos, PlacedIn;
    var stages' := stages[k := stage];
    assert forall l | 0 <= l < |stages'| && InIndex(stages'[l]) :: InIndex(stages[l]) && stages[l].b == stages'[l].b;
    assert forall l: nat | Rewound(stages', l) :: Rewound(stages, l);
  }

  lemma StagesDropped(hs: seq<Header>, es: seq<Entry>, stages: seq<Stage>, published: nat, top: nat)
    requires IndexOk(hs, es, stages, published, top) && published <= |stages|
    requires forall k | published <= k < |stages| :: stages[k].Dropped?
    ensures IndexOk(hs, es, stages[..published], published, top)
  {
    hide Ring, Pos, PlacedIn;
    var stages' := stages[..published];
    assert forall l: nat | Rewound(stages', l) :: Rewound(stages, l);
  }

  lemma MorePublished(hs: seq<Header>, es: seq<Entry>, stages: seq<Stage>, published: nat, top: nat, more: nat)
    requires IndexOk(hs, es, stages, published, top) && published <= more
    ensures IndexOk(hs, es, stages, more, top)
  {
    hide Ring, Placed, Pos, Keyed;
  }
}
