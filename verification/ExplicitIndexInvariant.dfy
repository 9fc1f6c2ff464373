/**
 What holds of the explicit producer's index and of its circular list of blocks, and which
 elements are done with: claimed by a thread that has set their flags already.
 */
module ExplicitIndexInvariant {
  import opened Wrappers
  import opened ThreadCounting
  import opened ModArithmetic
  import opened IndexBlocks
  import opened ExplicitIndex

  // ---------------------------------------------------------------------------
  // The ring of entries
  // ---------------------------------------------------------------------------

  /** The entries that were written stand where their block belongs. */
  predicate HeaderOk(h: Header) {
    && |h.entries| == h.size
    && forall q | 0 <= q < h.size :: h.entries[q].Some? ==> Pos(h, h.entries[q].value.base) == q
  }

  predicate Ring(hs: seq<Header>) { hs != [] && forall i | 0 <= i < |hs| :: HeaderOk(hs[i]) }

  /** Block `k` can be found through header `i`. */
  predicate Known(hs: seq<Header>, i: nat, k: nat) { i < |hs| && (i == |hs| - 1 || k < hs[i].hi) }

  predicate PlacedIn(h: Header, k: nat, b: nat) { EntryAt(h, Pos(h, k)) == Some(Entry(k, Some(b))) }

  /** The entries of the blocks in the window, up to the number `to`, are intact. */
  predicate Placed(hs: seq<Header>, first: nat, window: seq<nat>, to: nat) {
    forall i, d | 0 <= i < |hs| && 0 <= d < |window| && first + d < to && Known(hs, i, first + d)
      :: PlacedIn(hs[i], first + d, window[d])
  }

  predicate Dated(hs: seq<Header>, published: nat) { forall i | 0 <= i < |hs| - 1 :: hs[i].hi <= published }

  /** The newest block is not in the index yet. */
  predicate Storing(p: Producer) { p.StoreBase? || p.StoreBlock? }

  /** Up to which number the blocks are in the index. */
  function Indexed(s: State): int { s.Numbers() - if Storing(s.producer) then 1 else 0 }

  predicate FrontWritten(h: Header) { EntryAt(h, h.front).Some? }

  predicate IndexOk(s: State) {
    && Ring(s.headers) && Dated(s.headers, Blocks(s.bs, s.tail))
    && Indexed(s) >= 0 && Placed(s.headers, s.first, s.window, Indexed(s))
    && s.slotsUsed == |s.window| <= Cur(s.headers).size
    && s.prFront == Pos(Cur(s.headers), s.Numbers() - if Storing(s.producer) || s.producer.StoreFront? then 1 else 0)
    && (s.tail > 0 || s.producer.Construct? || s.producer.Publish? ==> FrontWritten(Cur(s.headers)))
  }

  // ---------------------------------------------------------------------------
  // The circular list
  // ---------------------------------------------------------------------------

  /** The list that `next` makes of the window. */
  predicate Linked(blocks: seq<Block>, first: nat, window: seq<nat>) {
    forall d | 0 <= d < |window| ::
      && window[d] < |blocks| && blocks[window[d]].place == Listed(first + d)
      && blocks[window[d]].next == window[if d + 1 < |window| then d + 1 else 0]
  }

  predicate ListOk(s: State) {
    && s.tailBlock == (if s.window == [] then None else Some(s.window[|s.window| - 1]))
    && Linked(s.blocks, s.first, s.window)
  }

  // ---------------------------------------------------------------------------
  // Elements and flags
  // ---------------------------------------------------------------------------

  /** The thread has claimed index `j` and not yet set its flag. */
  predicate Owes(bs: Size, p: Pc, j: nat) {
    && p.Busy? && p.next <= j < p.last
    && (p.step.Flagging? ==>
          var end := ChunkEnd(bs, p.next, p.last);
          j < end - p.step.done || end <= j)
  }

  ghost predicate Owed(bs: Size, ts: seq<Pc>, j: nat) { exists t | 0 <= t < |ts| :: Owes(bs, ts[t], j) }

  /** The element at `j` is gone. */
  ghost predicate Done(s: State, j: nat) { j < s.head && !Owed(s.bs, s.threads, j) }

  function Built(s: State): nat { s.tail + if s.producer.Publish? then 1 else 0 }

  /** Slots hold the elements of block `k`, and a flag is set exactly when the element is gone. */
  ghost predicate BlockOk(s: State, k: nat, b: nat) {
    && |BlockAt(s, b).flags| == s.bs && |BlockAt(s, b).slots| == s.bs
    && (forall j: nat | Base(s.bs, k) <= j < Base(s.bs, k) + s.bs :: BlockAt(s, b).flags[Flag(s.bs, j)] <==> Done(s, j))
    && (forall i | 0 <= i < s.bs && Base(s.bs, k) + i < Built(s) :: BlockAt(s, b).slots[i] == Base(s.bs, k) + i)
  }

  /** Blocks before the window are used up. */
  ghost predicate EarlyDone(s: State) { forall j: nat | j < Base(s.bs, s.first) :: Done(s, j) }

  predicate DisjointClaims(ts: seq<Pc>) {
    forall t, u | 0 <= t < u < |ts| && ts[t].Busy? && ts[u].Busy? :: ts[t].last <= ts[u].next
        || ts[u].last <= ts[t].next
  }

  // ---------------------------------------------------------------------------
  // Threads and the producer
  // ---------------------------------------------------------------------------

  predicate Finds(hs: seq<Header>, bs: Size, h: nat, last: nat) {
    last > 0 && Known(hs, h, Num(bs, last - 1))
  }

  predicate IndexKnown(hs: seq<Header>, bs: Size, next: nat, last: nat, step: Step) {
    match step
    case LoadIndex => true
    case LoadFront(h) => Finds(hs, bs, h, last) && (h == |hs| - 1 || FrontWritten(hs[h]))
    case LoadBase(h, pos) => Finds(hs, bs, h, last) && pos < hs[h].size && EntryAt(hs[h], pos).Some?
    case LoadBlock(h, idx) => Finds(hs, bs, h, last) && idx == Pos(hs[h], Num(bs, next))
    case Reading(h, idx, b, c) =>
      Finds(hs, bs, h, last) && idx == Pos(hs[h], Num(bs, next)) && next <= c < ChunkEnd(bs, next, last)
    case Flagging(h, idx, b, done) =>
      Finds(hs, bs, h, last) && idx == Pos(hs[h], Num(bs, next)) && done < ChunkEnd(bs, next, last) - next
  }

  predicate BlockKnown(first: nat, window: seq<nat>, bs: Size, next: nat, step: Step) {
    step.Reading? || step.Flagging? ==>
      first <= Num(bs, next) < first + |window| && window[Num(bs, next) - first] == step.b
  }

  predicate ThreadOk(s: State, p: Pc) {
    match p
    case Idle => true
    case Crashed => false
    case Busy(next, last, step) =>
      && next < last <= s.head
      && IndexKnown(s.headers, s.bs, next, last, step)
      && BlockKnown(s.first, s.window, s.bs, next, step)
  }

  predicate FlagsSet(flags: seq<bool>, n: nat) { forall i | 0 <= i < n :: Nth(flags, i, false) }

  predicate ProducerOk(s: State) {
    match s.producer
    case Resting => s.Numbers() == Blocks(s.bs, s.tail)
    case Checking(i) =>
      && s.Numbers() == Blocks(s.bs, s.tail) && s.tail % s.bs == 0 && i < s.bs
      && (i > 0 ==> s.window != [] && FlagsSet(BlockAt(s, s.window[0]).flags, i))
    case NeedRoom => s.Numbers() == Blocks(s.bs, s.tail) && s.tail % s.bs == 0
    case Requisition => s.Numbers() == Blocks(s.bs, s.tail) && s.tail % s.bs == 0 && |s.window| < Cur(s.headers).size
    case StoreBase => s.Numbers() == Num(s.bs, s.tail) + 1 && s.tail % s.bs == 0 && s.window != []
    case StoreBlock =>
      && s.Numbers() == Num(s.bs, s.tail) + 1 && s.tail % s.bs == 0 && s.window != []
      && OldEntry(s).base == Num(s.bs, s.tail)
    case StoreFront =>
      s.Numbers() == Num(s.bs, s.tail) + 1 && s.tail % s.bs == 0 && s.window != []
          && EntryAt(Cur(s.headers), s.prFront).Some?
    case Construct => s.Numbers() == Num(s.bs, s.tail) + 1 && s.window != []
    case Publish => s.Numbers() == Num(s.bs, s.tail) + 1 && s.window != []
  }

  predicate Faithful(received: seq<(nat, int)>) { forall r <- received :: r.0 == r.1 }

  ghost predicate BlocksOk(s: State) {
    && (forall d | 0 <= d < |s.window| :: BlockOk(s, s.first + d, s.window[d]))
    && EarlyDone(s)
    && forall b | 0 <= b < |s.blocks| :: |s.blocks[b].slots| == s.bs && |s.blocks[b].flags| == s.bs
  }

  predicate ThreadsOk(s: State) {
    (forall t | 0 <= t < |s.threads| :: ThreadOk(s, s.threads[t])) && DisjointClaims(s.threads)
  }

  ghost predicate Inv(s: State) {
    && IndexOk(s) && ListOk(s) && BlocksOk(s) && ThreadsOk(s) && ProducerOk(s)
    && s.head <= s.tail && Faithful(s.received)
  }
}
