/**
 Every step of a consumer keeps the invariant of the explicit producer's index: loading
 the header, its front and the base there, looking up the block, reading the elements of
 the chunk, and setting their flags one by one.
 */
module ExplicitIndexSteps {
  import opened Wrappers
  import opened ThreadCounting
  import opened ModArithmetic
  import opened IndexBlocks
  import opened ExplicitIndex
  import opened ExplicitIndexInvariant

  // ---------------------------------------------------------------------------
  // Consumers
  // ---------------------------------------------------------------------------

  lemma ThreadIsOk(s: State, t: Tid)
    requires Inv(s) && t < |s.threads|
    ensures ThreadOk(s, s.threads[t])
  {
  }

  /** Elements that a thread owes are in the window. */
  lemma OwedInWindow(s: State, t: Tid)
    requires Inv(s) && t < |s.threads| && s.threads[t].Busy?
    ensures var k := Num(s.bs, s.threads[t].next);
            s.first <= k < s.Numbers() && k < Indexed(s) && k < Blocks(s.bs, s.tail)
  {
    hide Ring, Placed, Dated, ListOk, Num, Base, Blocks, BlockOk, IndexKnown;
    var Busy(next, last, step) := s.threads[t];
    ThreadIsOk(s, t);
    var k := Num(s.bs, next);
    NumFacts(s.bs, next);
    assert next < ChunkEnd(s.bs, next, last);
    FlaggingLeavesNext(s, t);
    assert !Done(s, next);
    BaseOrder(s.bs, k, s.first);
    PublishedBlock(s.bs, next, s.tail);
    NumbersCover(s);
  }

  lemma FlaggingLeavesNext(s: State, t: Tid)
    requires t < |s.threads| && s.threads[t].Busy? && ThreadOk(s, s.threads[t])
    ensures Owes(s.bs, s.threads[t], s.threads[t].next) && Owed(s.bs, s.threads, s.threads[t].next)
  {
    hide Pos, Num, Base;
    NumFacts(s.bs, s.threads[t].next);
  }

  lemma NumbersCover(s: State)
    requires ProducerOk(s)
    ensures Blocks(s.bs, s.tail) <= s.Numbers() - if Storing(s.producer) then 1 else 0
  {
    hide Num, Base, Blocks;
    BlocksFacts(s.bs, s.tail);
    NumFacts(s.bs, s.tail);
    if s.tail > 0 {
      if s.tail % s.bs == 0 {
        BaseOrder(s.bs, Num(s.bs, s.tail), Blocks(s.bs, s.tail));
        BaseOrder(s.bs, Blocks(s.bs, s.tail), Num(s.bs, s.tail));
      } else {
        NumOrder(s.bs, s.tail - 1, s.tail);
      }
    }
  }

  /** A step after which the thread still owes the same elements. */
  lemma QuietKeeps(s: State, t: Tid, step: Step, received: seq<(nat, int)>)
    requires Inv(s) && t < |s.threads| && s.threads[t].Busy? && !s.threads[t].step.Flagging?
    requires step.Flagging? ==> step.done == 0
    requires ThreadOk(s, s.threads[t].(step := step)) && Faithful(received)
    ensures Inv(s.(received := received).Go(t, s.threads[t].(step := step)))
  {
    hide Faithful, ThreadOk, IndexOk, ListOk;
    var p := s.threads[t].(step := step);
    var s' := s.(received := received).Go(t, p);
    SameIndex(s, s');
    forall j: nat ensures Done(s', j) <==> Done(s, j) { SameOwed(s, t, p, j); }
    hide Done, Owed;
    forall d | 0 <= d < |s.window| ensures BlockOk(s', s.first + d, s.window[d]) {
      assert BlockOk(s, s.first + d, s.window[d]);
    }
    forall u | 0 <= u < |s.threads| ensures ThreadOk(s', s'.threads[u]) { SameForThread(s, s', s'.threads[u]); }
  }

  lemma SameOwed(s: State, t: Tid, p: Pc, j: nat)
    requires t < |s.threads| && Owes(s.bs, s.threads[t], j) == Owes(s.bs, p, j)
    ensures Owed(s.bs, s.threads[t := p], j) == Owed(s.bs, s.threads, j)
  {
    hide Owes;
    var ts' := s.threads[t := p];
    if Owed(s.bs, s.threads, j) {
      var u :| 0 <= u < |s.threads| && Owes(s.bs, s.threads[u], j);
      assert Owes(s.bs, ts'[u], j);
    }
    if Owed(s.bs, ts', j) {
      var u :| 0 <= u < |ts'| && Owes(s.bs, ts'[u], j);
      assert Owes(s.bs, s.threads[u], j);
    }
  }

  /** The index, the list and what the producer knows do not depend on the threads or the head. */
  lemma SameIndex(s: State, s': State)
    requires s'.(threads := s.threads, received := s.received, head := s.head) == s
    ensures IndexOk(s') == IndexOk(s) && ListOk(s') == ListOk(s) && ProducerOk(s') == ProducerOk(s)
  {
  }

  lemma SameForThread(s: State, s': State, p: Pc)
    requires s'.headers == s.headers && s'.bs == s.bs && s'.first == s.first && s'.window == s.window
             && s'.head >= s.head
    ensures ThreadOk(s, p) ==> ThreadOk(s', p)
  {
  }

  lemma LoadIndexKeeps(s: State, t: Tid)
    requires Inv(s) && t < |s.threads| && s.threads[t].Busy? && s.threads[t].step.LoadIndex?
    ensures Inv(Consume(s, t))
  {
    ThreadIsOk(s, t);
    QuietKeeps(s, t, LoadFront(Latest(s.headers)), s.received);
  }

  lemma LoadFrontKeeps(s: State, t: Tid)
    requires Inv(s) && t < |s.threads| && s.threads[t].Busy? && s.threads[t].step.LoadFront?
    ensures Inv(Consume(s, t))
  {
    var h := s.threads[t].step.h;
    ThreadIsOk(s, t);
    assert HeaderOk(s.headers[h]);
    QuietKeeps(s, t, LoadBase(h, s.headers[h].front), s.received);
  }

  /** Whichever entry is at the front, the slot that is computed from its base is that of the block. */
  lemma SlotIsRight(h: Header, pos: nat, k: nat)
    requires HeaderOk(h) && pos < h.size && EntryAt(h, pos).Some?
    ensures SlotFor(h.size, pos, k, EntryAt(h, pos).value.base) == Pos(h, k)
  {
    var base := EntryAt(h, pos).value.base;
    assert Pos(h, base) == pos;
    ModAdd(base + h.off, k - base, h.size);
  }

  lemma LoadBaseKeeps(s: State, t: Tid)
    requires Inv(s) && t < |s.threads| && s.threads[t].Busy? && s.threads[t].step.LoadBase?
    ensures Inv(Consume(s, t))
  {
    var Busy(next, last, step) := s.threads[t];
    ThreadIsOk(s, t);
    var h := s.headers[step.h];
    assert HeaderOk(h);
    SlotIsRight(h, step.pos, Num(s.bs, next));
    hide SlotFor;
    QuietKeeps(s, t, LoadBlock(step.h, Pos(h, Num(s.bs, next))), s.received);
  }

  lemma LoadBlockKeeps(s: State, t: Tid)
    requires Inv(s) && t < |s.threads| && s.threads[t].Busy? && s.threads[t].step.LoadBlock?
    ensures Inv(Consume(s, t))
  {
    var Busy(next, last, step) := s.threads[t];
    var k := Num(s.bs, next);
    ThreadIsOk(s, t);
    OwedInWindow(s, t);
    NumOrder(s.bs, next, last - 1);
    var d := k - s.first;
    assert Known(s.headers, step.h, s.first + d);
    assert PlacedIn(s.headers[step.h], s.first + d, s.window[d]);
    assert next < ChunkEnd(s.bs, next, last) by { NumFacts(s.bs, next); }
    QuietKeeps(s, t, Reading(step.h, step.idx, s.window[d], next), s.received);
  }

  /** The element in the slot is the one that was enqueued at the index. */
  lemma SlotHolds(s: State, t: Tid)
    requires Inv(s) && t < |s.threads| && s.threads[t].Busy? && s.threads[t].step.Reading?
    ensures var step := s.threads[t].step; Nth(BlockAt(s, step.b).slots, step.c % s.bs, -1) == step.c
  {
    hide IndexOk, ListOk, Num, Base, Done, Pos;
    var Busy(next, last, step) := s.threads[t];
    var k := Num(s.bs, next);
    ThreadIsOk(s, t);
    NumFacts(s.bs, next);
    NumUnique(s.bs, step.c, k);
    NumFacts(s.bs, step.c);
    var d := k - s.first;
    assert BlockOk(s, s.first + d, s.window[d]);
  }

  lemma ReadingGoesOn(hs: seq<Header>, bs: Size, next: nat, last: nat, step: Step)
    requires step.Reading? && IndexKnown(hs, bs, next, last, step)
    ensures step.c + 1 < ChunkEnd(bs, next, last)
            ==> IndexKnown(hs, bs, next, last, Reading(step.h, step.idx, step.b, step.c + 1))
    ensures IndexKnown(hs, bs, next, last, Flagging(step.h, step.idx, step.b, 0))
  {
  }

  function AfterRead(s: State, next: nat, last: nat, step: Step): Step
    requires step.Reading?
  {
    if step.c + 1 < ChunkEnd(s.bs, next, last) then Reading(step.h, step.idx, step.b, step.c + 1)
    else Flagging(step.h, step.idx, step.b, 0)
  }

  lemma AfterReadOk(s: State, next: nat, last: nat, step: Step)
    requires step.Reading? && ThreadOk(s, Busy(next, last, step))
    ensures ThreadOk(s, Busy(next, last, AfterRead(s, next, last, step)))
  {
    ReadingGoesOn(s.headers, s.bs, next, last, step);
    hide IndexKnown;
  }

  lemma ReadingKeeps(s: State, t: Tid)
    requires Inv(s) && t < |s.threads| && s.threads[t].Busy? && s.threads[t].step.Reading?
    ensures Inv(Consume(s, t))
  {
    hide IndexOk, ListOk, ThreadsOk, ProducerOk, BlocksOk, ChunkEnd, ThreadOk;
    var Busy(next, last, step) := s.threads[t];
    var received := s.received + [(step.c, step.c)];
    SlotHolds(s, t);
    ThreadIsOk(s, t);
    assert Faithful(received);
    hide Inv, Faithful;
    AfterReadOk(s, next, last, step);
    QuietKeeps(s, t, AfterRead(s, next, last, step), received);
  }

  // ---------------------------------------------------------------------------
  // Setting flags
  // ---------------------------------------------------------------------------

  /** Which flag `Flagging` sets. */
  function Flagged(bs: Size, next: nat, last: nat, done: nat): nat { Max(0, ChunkEnd(bs, next, last) - 1 - done) }

  /** Where the thread goes after setting a flag. */
  function AfterFlag(s: State, next: nat, last: nat, step: Step): Pc
    requires step.Flagging?
  {
    var end := ChunkEnd(s.bs, next, last);
    if next + step.done + 1 < end then Busy(next, last, Flagging(step.h, step.idx, step.b, step.done + 1))
    else Advance(end, last, Hdr(s.headers, step.h).size, step.h, step.idx)
  }

  /** Setting the flag settles just that element. */
  lemma FlagSettles(s: State, next: nat, last: nat, step: Step, j: nat)
    requires step.Flagging? && next < last && step.done < ChunkEnd(s.bs, next, last) - next
    ensures var p := AfterFlag(s, next, last, step);
            Owes(s.bs, p, j) == (Owes(s.bs, Busy(next, last, step), j) && j != Flagged(s.bs, next, last, step.done))
    ensures Owes(s.bs, Busy(next, last, step), Flagged(s.bs, next, last, step.done))
  {
    hide Num, Base;
    NumFacts(s.bs, next);
  }

  /** A thread's element is no other thread's. */
  lemma OwedByOne(s: State, t: Tid, p: Pc, j: nat, f: nat)
    requires ThreadsOk(s) && t < |s.threads| && Owes(s.bs, s.threads[t], f)
    requires Owes(s.bs, p, j) == (Owes(s.bs, s.threads[t], j) && j != f)
    ensures Owed(s.bs, s.threads[t := p], j) == (Owed(s.bs, s.threads, j) && j != f)
  {
    if j == f {
      forall u | 0 <= u < |s.threads| && u != t ensures !Owes(s.bs, s.threads[u], j) {
        var p, q := s.threads[u], s.threads[t];
        assert u < t ==> p.Busy? ==> p.last <= q.next || q.last <= p.next;
      }
    } else {
      SameOwed(s, t, p, j);
    }
  }

  lemma FlagsDiffer(bs: Size, i: nat, j: nat, k: nat)
    requires Base(bs, k) <= i < Base(bs, k) + bs && Base(bs, k) <= j < Base(bs, k) + bs && i != j
    ensures Flag(bs, i) != Flag(bs, j)
  {
    hide Num, Base;
    NumUnique(bs, i, k);
    NumUnique(bs, j, k);
    NumFacts(bs, i);
    NumFacts(bs, j);
  }

  /** The window has a block once only. */
  lemma WindowDistinct(s: State, d: nat, e: nat)
    requires ListOk(s) && d < |s.window| && e < |s.window| && s.window[d] == s.window[e]
    ensures d == e && s.window[d] < |s.blocks|
  {
  }

  /** What setting the flag of element `f` of the `e`-th block does to the blocks. */
  lemma FlagBlock(s: State, s': State, e: nat, f: nat, d: nat)
    requires Inv(s) && d < |s.window| && e < |s.window|
    requires s'.bs == s.bs && s'.first == s.first && s'.window == s.window && Built(s') == Built(s)
    requires s'.blocks == SetFlag(s, s.window[e], Flag(s.bs, f), true).blocks && f < s.head
    requires Base(s.bs, s.first + e) <= f < Base(s.bs, s.first + e) + s.bs
    requires forall j: nat :: Done(s', j) <==> (Done(s, j) || j == f)
    ensures BlockOk(s', s.first + d, s.window[d])
  {
    hide IndexOk, ThreadsOk, ProducerOk, Done, Base, Faithful, EarlyDone;
    assert BlockOk(s, s.first + d, s.window[d]);
    var k := s.first + d;
    if d == e {
      forall j: nat | Base(s.bs, k) <= j < Base(s.bs, k) + s.bs
        ensures BlockAt(s', s.window[d]).flags[Flag(s.bs, j)] <==> Done(s', j)
      {
        if j != f { FlagsDiffer(s.bs, j, f, k); }
      }
    } else {
      if s.window[d] == s.window[e] { WindowDistinct(s, d, e); }
      BaseOrder(s.bs, k, s.first + e);
      BaseOrder(s.bs, s.first + e, k);
      assert BlockAt(s', s.window[d]) == BlockAt(s, s.window[d]);
    }
  }

  /** The next position of the ring is that of the next block. */
  lemma NextPosition(h: Header, k: nat)
    ensures (Pos(h, k) + 1) % h.size == Pos(h, k + 1)
  {
    ModAdd(k + h.off, 1, h.size);
  }

  lemma NextChunk(bs: Size, next: nat, last: nat)
    requires next < last
    ensures var k, end := Num(bs, next), ChunkEnd(bs, next, last);
            next < end <= last && (end < last ==> Num(bs, end) == k + 1)
  {
    hide Num, Base;
    var k := Num(bs, next);
    NumFacts(bs, next);
    BaseOrder(bs, k, k + 1);
    NumUnique(bs, Base(bs, k + 1), k + 1);
  }

  lemma AfterFlagOk(s: State, t: Tid)
    requires Inv(s) && t < |s.threads| && s.threads[t].Busy? && s.threads[t].step.Flagging?
    ensures ThreadOk(s, AfterFlag(s, s.threads[t].next, s.threads[t].last, s.threads[t].step))
  {
    hide Pos, Num, IndexOk, ListOk, BlocksOk, ProducerOk, ChunkEnd;
    var Busy(next, last, step) := s.threads[t];
    ThreadIsOk(s, t);
    NextChunk(s.bs, next, last);
    NextPosition(s.headers[step.h], Num(s.bs, next));
  }

  lemma FlaggingOwed(s: State, t: Tid, j: nat)
    requires Inv(s) && t < |s.threads| && s.threads[t].Busy? && s.threads[t].step.Flagging?
    ensures var Busy(next, last, step) := s.threads[t];
            var f := Flagged(s.bs, next, last, step.done);
            && f < s.head && f < ChunkEnd(s.bs, next, last) && next <= f
            && (Done(Consume(s, t), j) <==> (Done(s, j) || j == f))
  {
    hide IndexOk, ListOk, BlocksOk, ProducerOk, ChunkEnd, Owed, Pos;
    var Busy(next, last, step) := s.threads[t];
    ThreadIsOk(s, t);
    FlagSettles(s, next, last, step, j);
    NextChunk(s.bs, next, last);
    var f := Flagged(s.bs, next, last, step.done);
    OwedByOne(s, t, AfterFlag(s, next, last, step), j, f);
    OwedByOne(s, t, AfterFlag(s, next, last, step), f, f) by { FlagSettles(s, next, last, step, f); }
  }

  /** Which flag of which block of the window the step sets. */
  lemma FlaggingSets(s: State, t: Tid)
    requires Inv(s) && t < |s.threads| && s.threads[t].Busy? && s.threads[t].step.Flagging?
    ensures var s', p := Consume(s, t), s.threads[t];
            var f, e := Flagged(s.bs, p.next, p.last, p.step.done), Num(s.bs, p.next) - s.first;
            && s'.bs == s.bs && s'.first == s.first && s'.window == s.window && Built(s') == Built(s)
            && 0 <= e < |s.window| && s'.blocks == SetFlag(s, s.window[e], Flag(s.bs, f), true).blocks
            && f < s.head && Base(s.bs, s.first + e) <= f < Base(s.bs, s.first + e) + s.bs
  {
    hide IndexOk, ListOk, BlocksOk, ProducerOk, Owed, Pos;
    ThreadIsOk(s, t);
    FlaggingOwed(s, t, 0);
    NumFacts(s.bs, s.threads[t].next);
  }

  lemma FlaggedBlock(s: State, t: Tid, d: nat)
    requires Inv(s) && t < |s.threads| && s.threads[t].Busy? && s.threads[t].step.Flagging? && d < |s.window|
    ensures BlockOk(Consume(s, t), s.first + d, s.window[d])
  {
    hide Inv, Done, Flag, Flagged, Num, Base, BlockOk, Consume, Built, SetFlag;
    var s', p := Consume(s, t), s.threads[t];
    FlaggingSets(s, t);
    var f := Flagged(s.bs, p.next, p.last, p.step.done);
    forall j: nat ensures Done(s', j) <==> (Done(s, j) || j == f) { FlaggingOwed(s, t, j); }
    FlagBlock(s, s', Num(s.bs, p.next) - s.first, f, d);
  }

  lemma FlaggingThreads(s: State, t: Tid)
    requires Inv(s) && t < |s.threads| && s.threads[t].Busy? && s.threads[t].step.Flagging?
    ensures ThreadsOk(Consume(s, t))
  {
    hide IndexOk, ListOk, BlocksOk, ProducerOk;
    var s' := Consume(s, t);
    var Busy(next, last, step) := s.threads[t];
    ThreadIsOk(s, t);
    NextChunk(s.bs, next, last);
    AfterFlagOk(s, t);
    assert s'.threads[t] == AfterFlag(s, next, last, step);
    assert s'.threads[t].Busy? ==> s'.threads[t].last == last && s'.threads[t].next >= next;
    hide ThreadOk, ChunkEnd;
    forall u | 0 <= u < |s.threads| ensures ThreadOk(s', s'.threads[u]) { SameForThread(s, s', s'.threads[u]); }
  }

  lemma FlaggingFrame(s: State, t: Tid)
    requires t < |s.threads| && s.threads[t].Busy? && s.threads[t].step.Flagging?
    ensures var s' := Consume(s, t);
            && s' == s.(blocks := s'.blocks, threads := s'.threads) && |s'.blocks| == |s.blocks|
            && forall b | 0 <= b < |s.blocks| :: FlagMore(s.blocks[b], s'.blocks[b])
  {
    hide ChunkEnd, Flag;
  }

  /** A block with perhaps one more flag set. */
  predicate FlagMore(block: Block, block': Block) {
    && block' == block.(flags := block'.flags) && |block'.flags| == |block.flags|
    && forall i | 0 <= i < |block.flags| && block.flags[i] :: block'.flags[i]
  }

  lemma FlaggingEarly(s: State, t: Tid)
    requires Inv(s) && t < |s.threads| && s.threads[t].Busy? && s.threads[t].step.Flagging?
    ensures EarlyDone(Consume(s, t))
  {
    hide ListOk, ThreadsOk, ProducerOk, IndexOk, BlockOk, Done, Faithful;
    var s' := Consume(s, t);
    assert s'.bs == s.bs && s'.first == s.first;
    hide Consume;
    forall j: nat | j < Base(s.bs, s.first) ensures Done(s', j) {
      assert Done(s, j);
      FlaggingOwed(s, t, j);
    }
  }

  lemma FlaggingSizes(s: State, s': State)
    requires BlocksOk(s) && |s'.blocks| == |s.blocks|
    requires forall b | 0 <= b < |s.blocks| :: FlagMore(s.blocks[b], s'.blocks[b])
    ensures forall b | 0 <= b < |s'.blocks| :: |s'.blocks[b].slots| == s.bs && |s'.blocks[b].flags| == s.bs
  {
    hide BlockOk, EarlyDone;
    forall b | 0 <= b < |s'.blocks| ensures |s'.blocks[b].slots| == s.bs && |s'.blocks[b].flags| == s.bs {
      assert FlagMore(s.blocks[b], s'.blocks[b]);
    }
  }

  lemma FlaggingBlocks(s: State, t: Tid)
    requires Inv(s) && t < |s.threads| && s.threads[t].Busy? && s.threads[t].step.Flagging?
    ensures BlocksOk(Consume(s, t))
  {
    hide IndexOk, ListOk, ThreadsOk, ProducerOk, BlockOk, EarlyDone, Consume, FlagMore, Faithful;
    var s' := Consume(s, t);
    FlaggingFrame(s, t);
    FlaggingEarly(s, t);
    FlaggingSizes(s, s');
    forall d | 0 <= d < |s'.window| ensures BlockOk(s', s'.first + d, s'.window[d]) { FlaggedBlock(s, t, d); }
  }

  lemma FlaggingKeeps(s: State, t: Tid)
    requires Inv(s) && t < |s.threads| && s.threads[t].Busy? && s.threads[t].step.Flagging?
    ensures Inv(Consume(s, t))
  {
    FlaggingFrame(s, t);
    FlaggingThreads(s, t);
    FlaggingBlocks(s, t);
    hide ListOk, ThreadsOk, ProducerOk, IndexOk, BlocksOk, Consume, Faithful;
    FlaggingList(s, Consume(s, t));
  }

  lemma FlaggingList(s: State, s': State)
    requires ListOk(s) && IndexOk(s) && ProducerOk(s)
    requires s' == s.(blocks := s'.blocks, threads := s'.threads) && |s'.blocks| == |s.blocks|
    requires forall b | 0 <= b < |s.blocks| :: FlagMore(s.blocks[b], s'.blocks[b])
    ensures ListOk(s') && IndexOk(s') && ProducerOk(s')
  {
    hide Ring, Placed, Pos, Num, Blocks;
    forall d | 0 <= d < |s.window| ensures FlagMore(s.blocks[s.window[d]], s'.blocks[s.window[d]]) { }
    if s.producer.Checking? && s.producer.i > 0 {
      var flags, flags' := BlockAt(s, s.window[0]).flags, BlockAt(s', s.window[0]).flags;
      forall i | 0 <= i < s.producer.i ensures Nth(flags', i, false) { assert Nth(flags, i, false); }
    }
  }

  lemma ConsumeKeeps(s: State, t: Tid)
    requires Inv(s) && t < |s.threads| && s.threads[t].Busy?
    ensures Inv(Consume(s, t))
  {
    hide Inv, Consume;
    match s.threads[t].step
    case LoadIndex => LoadIndexKeeps(s, t);
    case LoadFront(_) => LoadFrontKeeps(s, t);
    case LoadBase(_, _) => LoadBaseKeeps(s, t);
    case LoadBlock(_, _) => LoadBlockKeeps(s, t);
    case Reading(_, _, _, _) => ReadingKeeps(s, t);
    case Flagging(_, _, _, _) => FlaggingKeeps(s, t);
  }
}
