/**
 Every step of the producer, and of the rest of the queue, keeps the invariant of the
 explicit producer's index: testing the oldest block's flags, taking it again, growing
 the index, linking a new block, writing its entry, and publishing an element.
 */
module ExplicitIndexProducer {
  import opened Wrappers
  import opened ThreadCounting
  import opened ModArithmetic
  import opened IndexBlocks
  import opened ExplicitIndex
  import opened ExplicitIndexInvariant
  import opened ExplicitIndexSteps

  /** A step between places of the program at which no block is half inserted and no element half enqueued. */
  lemma ToKeeps(s: State, p: Producer)
    requires Inv(s) && !Storing(s.producer) && !s.producer.StoreFront? && !s.producer.Publish?
    requires !Storing(p) && !p.StoreFront? && !p.Publish? && ProducerOk(s.To(p))
    requires p.Construct? ==> s.tail > 0
    ensures Inv(s.To(p))
  {
    hide Ring, Placed, Dated, ListOk, ProducerOk, ThreadOk, Faithful, EarlyDone, Done;
    var s' := s.To(p);
    assert ListOk(s') by { SameList(s, s'); }
    assert EarlyDone(s') by { SameEarly(s, s'); }
    forall d | 0 <= d < |s.window| ensures BlockOk(s', s.first + d, s.window[d]) {
      SameBlock(s, s', s.first + d, s.window[d]);
    }
    forall t | 0 <= t < |s.threads| ensures ThreadOk(s', s'.threads[t]) { SameForThread(s, s', s.threads[t]); }
  }

  lemma SameList(s: State, s': State)
    requires s'.blocks == s.blocks && s'.first == s.first && s'.window == s.window && s'.tailBlock == s.tailBlock
    ensures ListOk(s') == ListOk(s)
  {
  }

  /** What is done is a matter of the head and the threads. */
  lemma SameEarly(s: State, s': State)
    requires s'.bs == s.bs && s'.first == s.first && s'.head == s.head && s'.threads == s.threads
    ensures EarlyDone(s') == EarlyDone(s)
  {
    assert forall j: nat :: Done(s', j) == Done(s, j);
    hide Done;
  }

  lemma SameBlock(s: State, s': State, k: nat, b: nat)
    requires BlockOk(s, k, b)
    requires s'.bs == s.bs && s'.head == s.head && s'.threads == s.threads
    requires BlockAt(s', b) == BlockAt(s, b).(next := BlockAt(s', b).next, place := BlockAt(s', b).place)
    requires Built(s') == Built(s)
    ensures BlockOk(s', k, b)
  {
    assert forall j: nat :: Done(s', j) == Done(s, j);
    hide Done;
  }

  /** Where a new block begins, the blocks so far are those before it. */
  lemma AtBoundary(bs: Size, tail: nat)
    ensures tail % bs == 0 ==> Blocks(bs, tail) == Num(bs, tail) && Base(bs, Num(bs, tail)) == tail
    ensures tail % bs != 0 ==> Blocks(bs, tail) == Num(bs, tail) + 1 && tail > 0
    ensures Blocks(bs, tail + 1) == Num(bs, tail) + 1
  {
    hide Num, Base, Blocks;
    NumFacts(bs, tail);
    BlocksFacts(bs, tail);
    BlocksFacts(bs, tail + 1);
    BaseOrder(bs, Num(bs, tail), Blocks(bs, tail));
    BaseOrder(bs, Blocks(bs, tail), Num(bs, tail));
    if tail % bs != 0 {
      BaseOrder(bs, Num(bs, tail) + 1, Blocks(bs, tail));
      BaseOrder(bs, Num(bs, tail), Num(bs, tail) + 1);
    }
  }

  /** Inside a block that block is the newest in the window. */
  lemma TailInWindow(s: State)
    requires Inv(s) && s.producer.Resting? && s.tail % s.bs != 0
    ensures s.Numbers() == Num(s.bs, s.tail) + 1 && s.window != []
  {
    hide IndexOk, ListOk, ThreadsOk, Num, Base, Blocks, BlockOk, Owed;
    AtBoundary(s.bs, s.tail);
    NumFacts(s.bs, s.tail);
    BaseOrder(s.bs, Num(s.bs, s.tail), Num(s.bs, s.tail) + 1);
    assert !Done(s, s.tail);
  }

  lemma EnqueueKeeps(s: State)
    requires Inv(s) && s.producer.Resting?
    ensures Inv(Apply(s, Enqueue))
  {
    hide IndexOk, ListOk, ThreadsOk, BlocksOk, Num, Blocks, Faithful;
    AtBoundary(s.bs, s.tail);
    if s.tail % s.bs == 0 {
      ToKeeps(s, Checking(0));
    } else {
      TailInWindow(s);
      ToKeeps(s, Construct);
    }
  }

  /** The block ahead is the oldest of the window. */
  lemma AheadIsOldest(s: State)
    requires ListOk(s) && s.window != []
    ensures Ahead(s) == s.window[0] && s.window[0] < |s.blocks|
  {
  }

  lemma CheckingKeeps(s: State)
    requires Inv(s) && s.producer.Checking? && Produce(s) != Reuse(s)
    ensures Inv(Produce(s))
  {
    hide IndexOk, ThreadsOk, BlocksOk, Num, Blocks, Faithful;
    var i, s' := s.producer.i, Produce(s);
    if s.tailBlock.Some? {
      AheadIsOldest(s);
      if Nth(BlockAt(s, s.window[0]).flags, i, false) {
        assert FlagsSet(BlockAt(s, s.window[0]).flags, i + 1) by {
          assert i > 0 ==> FlagsSet(BlockAt(s, s.window[0]).flags, i);
        }
      }
    }
    ToKeeps(s, s'.producer);
  }

  lemma GiveUpKeeps(s: State)
    requires Inv(s) && (s.producer.NeedRoom? || s.producer.Requisition?)
    ensures Inv(s.To(Resting))
  {
    hide IndexOk, ListOk, ThreadsOk, BlocksOk, Num, Blocks, Faithful;
    ToKeeps(s, Resting);
  }

  lemma HasRoomKeeps(s: State)
    requires Inv(s) && s.producer.NeedRoom? && s.slotsUsed != Cur(s.headers).size
    ensures Inv(s.To(Requisition))
  {
    hide ListOk, ThreadsOk, BlocksOk, Num, Blocks, Faithful, Ring, Placed, Dated, Pos;
    ToKeeps(s, Requisition);
  }

  // ---------------------------------------------------------------------------
  // A larger index
  // ---------------------------------------------------------------------------

  /** The entries that are copied are those of the window, in order. */
  lemma GrownWindow(s: State, d: nat)
    requires Inv(s) && s.producer.NeedRoom? && d < |s.window|
    ensures GrownEntry(Cur(s.headers), s.prFront, s.slotsUsed, d) == Some(Entry(s.first + d, Some(s.window[d])))
  {
    hide ListOk, ThreadsOk, BlocksOk, ProducerOk, Faithful, Ring, Dated;
    var cur := Cur(s.headers);
    ModAdd(s.Numbers() + cur.off, d - s.slotsUsed, cur.size);
    assert (s.prFront - s.slotsUsed + d) % cur.size == Pos(cur, s.first + d);
    RingNonempty(s.headers, s);
    assert Known(s.headers, |s.headers| - 1, s.first + d);
    assert PlacedIn(s.headers[|s.headers| - 1], s.first + d, s.window[d]);
  }

  lemma GrownPos(h: Header, prFront: nat, slotsUsed: nat, first: nat, d: nat)
    requires d < 2 * h.size
    ensures Pos(Grown(h, prFront, slotsUsed, first), first + d) == d
  {
    ModUnique(d, 2 * h.size, 0, d);
  }

  lemma GrownHeader(s: State)
    requires Inv(s) && s.producer.NeedRoom? && s.slotsUsed == Cur(s.headers).size
    ensures var g := Grown(Cur(s.headers), s.prFront, s.slotsUsed, s.first);
            && HeaderOk(g) && FrontWritten(g) && Pos(g, s.Numbers()) == s.slotsUsed
            && forall d | 0 <= d < |s.window| :: PlacedIn(g, s.first + d, s.window[d])
  {
    hide ListOk, ThreadsOk, BlocksOk, ProducerOk, Faithful, Ring, Dated, Placed, Pos, GrownEntry;
    var cur := Cur(s.headers);
    var g := Grown(cur, s.prFront, s.slotsUsed, s.first);
    GrownPos(cur, s.prFront, s.slotsUsed, s.first, s.slotsUsed);
    forall q | 0 <= q < g.size
      ensures q < |s.window| ==> g.entries[q] == Some(Entry(s.first + q, Some(s.window[q]))) && Pos(g, s.first + q) == q
      ensures q >= |s.window| ==> g.entries[q].None?
    {
      if q < |s.window| {
        GrownWindow(s, q);
        GrownPos(cur, s.prFront, s.slotsUsed, s.first, q);
      } else {
        assert GrownEntry(cur, s.prFront, s.slotsUsed, q) == None by { NothingBehind(cur, s.prFront, s.slotsUsed, q); }
      }
    }
  }

  lemma NothingBehind(h: Header, prFront: nat, slotsUsed: nat, q: nat)
    requires q >= slotsUsed
    ensures GrownEntry(h, prFront, slotsUsed, q) == None
  {
  }

  lemma DateIrrelevant(h: Header, hi: nat, k: int)
    ensures Pos(h.(hi := hi), k) == Pos(h, k) && (HeaderOk(h) ==> HeaderOk(h.(hi := hi)))
  {
    assert forall j :: Pos(h.(hi := hi), j) == Pos(h, j);
  }

  lemma GrowRing(s: State)
    requires Inv(s) && s.producer.NeedRoom? && s.slotsUsed == Cur(s.headers).size
    ensures Ring(Grow(s).headers) && Dated(Grow(s).headers, Blocks(s.bs, s.tail))
  {
    hide ListOk, ThreadsOk, BlocksOk, ProducerOk, Faithful, Pos, HeaderOk, Grown, Blocks, Placed, FrontWritten;
    var s' := Grow(s);
    GrownHeader(s);
    forall i | 0 <= i < |s'.headers| ensures HeaderOk(s'.headers[i]) {
      if i == |s.headers| - 1 { DateIrrelevant(Cur(s.headers), Blocks(s.bs, s.tail), 0); }
    }
  }

  lemma GrowPlaced(s: State)
    requires Inv(s) && s.producer.NeedRoom? && s.slotsUsed == Cur(s.headers).size
    ensures Placed(Grow(s).headers, s.first, s.window, s.Numbers())
  {
    hide ListOk, ThreadsOk, BlocksOk, ProducerOk, Faithful, Pos, Ring, HeaderOk, Grown, Blocks, FrontWritten, Dated;
    var s' := Grow(s);
    RingNonempty(s.headers, s);
    GrownHeader(s);
    forall i, d | 0 <= i < |s'.headers| && 0 <= d < |s.window| && s.first + d < s.Numbers()
        && Known(s'.headers, i, s.first + d)
      ensures PlacedIn(s'.headers[i], s.first + d, s.window[d])
    {
      if i < |s.headers| {
        assert Known(s.headers, i, s.first + d);
        assert PlacedIn(s.headers[i], s.first + d, s.window[d]);
        DateIrrelevant(s.headers[i], Blocks(s.bs, s.tail), s.first + d);
      }
    }
  }

  lemma GrowIndex(s: State)
    requires Inv(s) && s.producer.NeedRoom? && s.slotsUsed == Cur(s.headers).size
    ensures IndexOk(Grow(s))
  {
    hide ListOk, ThreadsOk, BlocksOk, ProducerOk, Faithful, Pos, Ring, Placed, Dated, Grown, Blocks, FrontWritten;
    RingNonempty(s.headers, s);
    GrownHeader(s);
    GrowRing(s);
    GrowPlaced(s);
    GrownSize(Cur(s.headers), s.prFront, s.slotsUsed, s.first);
  }

  lemma GrownSize(h: Header, prFront: nat, slotsUsed: nat, first: nat)
    ensures Grown(h, prFront, slotsUsed, first).size == 2 * h.size
  {
  }

  lemma GrowThread(s: State, t: Tid)
    requires Inv(s) && s.producer.NeedRoom? && s.slotsUsed == Cur(s.headers).size && t < |s.threads|
    ensures ThreadOk(Grow(s), s.threads[t])
  {
    hide ListOk, BlocksOk, ProducerOk, Faithful, Pos, Ring, Placed, Grown, Blocks, Num, ChunkEnd;
    ThreadIsOk(s, t);
    if s.threads[t].Busy? {
      var Busy(next, last, step) := s.threads[t];
      PublishedBlock(s.bs, last - 1, s.tail);
      assert s.headers != [] by { RingNonempty(s.headers, s); }
      if !step.LoadIndex? {
        var h, h' := s.headers[step.h], Grow(s).headers[step.h];
        assert h' == h || h' == h.(hi := Blocks(s.bs, s.tail));
        forall k ensures Pos(h', k) == Pos(h, k) {
          DateIrrelevant(h, Blocks(s.bs, s.tail), k);
        }
      }
    }
  }

  lemma RingNonempty(hs: seq<Header>, s: State)
    requires hs == s.headers && IndexOk(s)
    ensures hs != [] && Cur(hs) == hs[|hs| - 1]
  {
  }

  lemma GrowKeeps(s: State)
    requires Inv(s) && s.producer.NeedRoom? && s.slotsUsed == Cur(s.headers).size
    ensures Inv(Grow(s))
  {
    hide IndexOk, ListOk, Faithful, ThreadOk, BlockOk, EarlyDone, Grown;
    var s' := Grow(s);
    GrowIndex(s);
    RingNonempty(s.headers, s);
    SameList(s, s');
    SameEarly(s, s');
    GrowProducer(s);
    hide ProducerOk;
    forall d | 0 <= d < |s.window| ensures BlockOk(s', s.first + d, s.window[d]) {
      SameBlock(s, s', s.first + d, s.window[d]);
    }
    forall t | 0 <= t < |s.threads| ensures ThreadOk(s', s'.threads[t]) { GrowThread(s, t); }
  }

  lemma GrowProducer(s: State)
    requires Inv(s) && s.producer.NeedRoom? && s.slotsUsed == Cur(s.headers).size
    ensures ProducerOk(Grow(s))
  {
    hide ListOk, BlocksOk, ThreadsOk, Faithful, Ring, Placed, Dated, Blocks, Grown, Pos;
    GrownSize(Cur(s.headers), s.prFront, s.slotsUsed, s.first);
    RingNonempty(s.headers, s);
  }

  // ---------------------------------------------------------------------------
  // Taking the oldest block again
  // ---------------------------------------------------------------------------

  /** When all flags are set, all elements of the block are gone. */
  lemma OldestIsDone(s: State, j: nat)
    requires Inv(s) && s.window != [] && FlagsSet(BlockAt(s, s.window[0]).flags, s.bs)
    requires j < Base(s.bs, s.first + 1)
    ensures Done(s, j)
  {
    hide IndexOk, ListOk, ThreadsOk, ProducerOk, Faithful, Done, Base, Num;
    if j >= Base(s.bs, s.first) {
      BaseOrder(s.bs, s.first, s.first + 1);
      assert BlockOk(s, s.first + 0, s.window[0]);
      assert Nth(BlockAt(s, s.window[0]).flags, Flag(s.bs, j), false);
    }
  }

  /** Nothing of a block that is not yet enqueued to is done or built. */
  lemma NothingDone(s: State, j: nat)
    requires s.head <= s.tail <= j
    ensures !Done(s, j)
  {
  }

  /** A block that is about to be used anew. */
  lemma FreshBlockOk(s: State, k: nat, b: nat)
    requires BlockAt(s, b).flags == seq(s.bs, i => false) && |BlockAt(s, b).slots| == s.bs
    requires s.head <= s.tail <= Base(s.bs, k) && Built(s) == s.tail
    ensures BlockOk(s, k, b)
  {
    forall j: nat | Base(s.bs, k) <= j ensures !Done(s, j) { NothingDone(s, j); }
    hide Done, Base;
  }

  lemma ReuseBlocks(s: State, d: nat)
    requires Inv(s) && s.producer.Checking? && s.window != [] && Ahead(s) == s.window[0] && d < |s.window|
    ensures var s' := Reuse(s); BlockOk(s', s'.first + d, s'.window[d])
  {
    hide IndexOk, ThreadsOk, Faithful, Done, Num, Blocks, Base, EarlyDone, BlockOk, FlagsSet;
    var s' := Reuse(s);
    AtBoundary(s.bs, s.tail);
    if d + 1 < |s.window| {
      assert s'.window[d] == s.window[d + 1] && s.window[d + 1] != s.window[0];
      assert BlockOk(s, s.first + (d + 1), s.window[d + 1]);
      SameBlock(s, s', s.first + (d + 1), s.window[d + 1]);
    } else {
      assert s'.window[d] == s.window[0] < |s.blocks|;
      FreshBlockOk(s', s.Numbers(), s.window[0]);
    }
  }

  lemma SameDone(s: State, s': State)
    requires s'.bs == s.bs && s'.head == s.head && s'.threads == s.threads
    ensures forall j: nat :: Done(s', j) == Done(s, j)
  {
  }

  lemma ReuseLinks(s: State, d: nat)
    requires ListOk(s) && s.window != [] && Ahead(s) == s.window[0] && d < |s.window|
    ensures var s', n := Reuse(s), |s.window|;
            && s'.window[d] < |s'.blocks| && s'.blocks[s'.window[d]].place == Listed(s'.first + d)
            && s'.blocks[s'.window[d]].next == s'.window[if d + 1 < n then d + 1 else 0]
  {
    var s', n := Reuse(s), |s.window|;
    if d + 1 < n {
      assert s'.window[d] == s.window[d + 1] && s.window[d + 1] != s.window[0];
      if d + 2 < n { assert s'.window[d + 1] == s.window[d + 2]; }
    }
  }

  lemma ReuseList(s: State)
    requires ListOk(s) && s.window != [] && Ahead(s) == s.window[0]
    ensures ListOk(Reuse(s))
  {
    forall d | 0 <= d < |s.window|
      ensures var s', n := Reuse(s), |s.window|;
              && s'.window[d] < |s'.blocks| && s'.blocks[s'.window[d]].place == Listed(s'.first + d)
              && s'.blocks[s'.window[d]].next == s'.window[if d + 1 < n then d + 1 else 0]
    {
      ReuseLinks(s, d);
    }
  }

  lemma ReuseThread(s: State, t: Tid)
    requires Inv(s) && s.window != [] && FlagsSet(BlockAt(s, s.window[0]).flags, s.bs) && t < |s.threads|
    ensures ThreadOk(Reuse(s), s.threads[t])
  {
    hide ListOk, ProducerOk, Faithful, IndexKnown, BlockOk, Ring, Placed, Base, Num, Owed, BlocksOk;
    ThreadIsOk(s, t);
    if s.threads[t].Busy? {
      var next := s.threads[t].next;
      OwedInWindow(s, t);
      FlaggingLeavesNext(s, t);
      if Num(s.bs, next) == s.first {
        NumFacts(s.bs, next);
        BaseOrder(s.bs, s.first, s.first + 1);
        OldestIsDone(s, next);
        assert false;
      }
    }
  }

  lemma ReuseIndex(s: State)
    requires Inv(s) && s.producer.Checking? && s.window != []
    ensures IndexOk(Reuse(s)) && ProducerOk(Reuse(s))
  {
    hide ListOk, ThreadsOk, BlocksOk, Faithful, Ring, Pos, Num, Blocks, PlacedIn;
    var s' := Reuse(s);
    AtBoundary(s.bs, s.tail);
    forall i, d | 0 <= i < |s'.headers| && 0 <= d < |s'.window| && s'.first + d < Indexed(s')
        && Known(s'.headers, i, s'.first + d)
      ensures PlacedIn(s'.headers[i], s'.first + d, s'.window[d])
    {
      assert Known(s.headers, i, s.first + (d + 1));
      assert PlacedIn(s.headers[i], s.first + (d + 1), s.window[d + 1]);
    }
  }

  lemma ReuseKeeps(s: State)
    requires Inv(s) && s.producer.Checking? && Produce(s) == Reuse(s)
    ensures Inv(Produce(s))
  {
    hide IndexOk, ThreadOk, BlockOk, EarlyDone, Faithful, Num, Blocks;
    var s' := Reuse(s);
    AheadIsOldest(s);
    assert FlagsSet(BlockAt(s, s.window[0]).flags, s.bs) by {
      assert s.producer.i > 0 ==> FlagsSet(BlockAt(s, s.window[0]).flags, s.producer.i);
    }
    ReuseIndex(s);
    ReuseList(s);
    hide ListOk, ProducerOk, FlagsSet;
    forall d | 0 <= d < |s'.window| ensures BlockOk(s', s'.first + d, s'.window[d]) { ReuseBlocks(s, d); }
    forall t | 0 <= t < |s.threads| ensures ThreadOk(s', s'.threads[t]) { ReuseThread(s, t); }
    ReuseEarly(s);
  }

  lemma ReuseEarly(s: State)
    requires Inv(s) && s.window != [] && FlagsSet(BlockAt(s, s.window[0]).flags, s.bs)
    ensures EarlyDone(Reuse(s))
  {
    hide IndexOk, ListOk, ThreadsOk, BlocksOk, ProducerOk, Faithful, FlagsSet, Done;
    var s' := Reuse(s);
    SameDone(s, s');
    forall j: nat | j < Base(s.bs, s'.first) ensures Done(s', j) { OldestIsDone(s, j); }
  }

  // ---------------------------------------------------------------------------
  // A new block
  // ---------------------------------------------------------------------------

  lemma LinkFrame(s: State, b: nat)
    requires Inv(s) && s.producer.Requisition? && Enabled(s, Obtain(b))
    ensures var s' := Link(s, b);
            && |s'.blocks| >= |s.blocks| && b < |s'.blocks| && b !in s.window
            && s'.blocks[b].place == Listed(s.Numbers()) && s'.blocks[b].flags == seq(s.bs, i => false)
            && |s'.blocks[b].slots| == s.bs
            && s'.blocks[b].next == (if s.window == [] then b else s.window[0])
    ensures var s', n := Link(s, b), |s.window|;
            forall c | 0 <= c < |s.blocks| && c != b ::
              s'.blocks[c] == if n > 0 && c == s.window[n - 1] then s.blocks[c].(next := b) else s.blocks[c]
  {
    hide IndexOk, ThreadsOk, ProducerOk, BlockOk, EarlyDone, Faithful;
    if s.window != [] { assert s.blocks[s.window[|s.window| - 1]].next == s.window[0]; }
  }

  lemma LinkedExtends(blocks: seq<Block>, blocks': seq<Block>, first: nat, window: seq<nat>, b: nat)
    requires Linked(blocks, first, window) && |blocks| <= |blocks'| && b !in window && b < |blocks'|
    requires blocks'[b].place == Listed(first + |window|) && blocks'[b].next == (if window == [] then b else window[0])
    requires forall c | 0 <= c < |blocks| && c != b ::
               blocks'[c] == if window != [] && c == window[|window| - 1] then blocks[c].(next := b) else blocks[c]
    ensures Linked(blocks', first, window + [b])
  {
    var n, window' := |window|, window + [b];
    forall d | 0 <= d < n + 1
      ensures && window'[d] < |blocks'| && blocks'[window'[d]].place == Listed(first + d)
              && blocks'[window'[d]].next == window'[if d + 1 < n + 1 then d + 1 else 0]
    {
      if d < n {
        assert window'[d] == window[d] && window[d] != b;
        if d < n - 1 { assert blocks[window[d]].place != blocks[window[n - 1]].place; }
      }
    }
  }

  lemma LinkList(s: State, b: nat)
    requires Inv(s) && s.producer.Requisition? && Enabled(s, Obtain(b))
    ensures ListOk(Link(s, b))
  {
    hide IndexOk, ThreadsOk, ProducerOk, BlocksOk, Faithful, Linked;
    LinkFrame(s, b);
    LinkedExtends(s.blocks, Link(s, b).blocks, s.first, s.window, b);
  }

  lemma LinkLeavesBlock(s: State, b: nat, d: nat)
    requires Inv(s) && s.producer.Requisition? && Enabled(s, Obtain(b)) && d < |s.window|
    ensures var c := s.window[d];
            BlockAt(Link(s, b), c) == BlockAt(s, c).(next := BlockAt(Link(s, b), c).next)
  {
    hide IndexOk, ThreadsOk, ProducerOk, BlocksOk, Faithful, Linked;
    LinkFrame(s, b);
    WindowInBlocks(s);
    hide Link;
    assert s.window[d] != b;
  }

  lemma LinkOldBlock(s: State, b: nat, d: nat)
    requires Inv(s) && s.producer.Requisition? && Enabled(s, Obtain(b)) && d < |s.window|
    ensures BlockOk(Link(s, b), s.first + d, s.window[d])
  {
    hide IndexOk, ThreadsOk, ProducerOk, ListOk, Faithful, EarlyDone, BlockOk;
    var s' := Link(s, b);
    LinkLeavesBlock(s, b, d);
    assert s'.bs == s.bs && s'.head == s.head && s'.threads == s.threads && Built(s') == Built(s);
    assert BlockOk(s, s.first + d, s.window[d]);
    hide Link, BlockAt;
    SameBlock(s, s', s.first + d, s.window[d]);
  }

  lemma LinkNewBlock(s: State, b: nat)
    requires Inv(s) && s.producer.Requisition? && Enabled(s, Obtain(b))
    ensures BlockOk(Link(s, b), s.Numbers(), b)
  {
    hide IndexOk, ThreadsOk, ListOk, BlocksOk, Num, Blocks, Base, Faithful;
    var s' := Link(s, b);
    AtBoundary(s.bs, s.tail);
    LinkFrame(s, b);
    FreshBlockOk(s', s.Numbers(), b);
  }

  lemma WindowInBlocks(s: State)
    requires ListOk(s)
    ensures forall d | 0 <= d < |s.window| :: s.window[d] < |s.blocks|
  {
  }

  lemma LinkIndex(s: State, b: nat)
    requires Inv(s) && s.producer.Requisition? && Enabled(s, Obtain(b))
    ensures IndexOk(Link(s, b)) && ProducerOk(Link(s, b))
  {
    hide ListOk, ThreadsOk, BlocksOk, Faithful, Ring, Pos, Num, Blocks, PlacedIn;
    var s' := Link(s, b);
    AtBoundary(s.bs, s.tail);
    forall i, d | 0 <= i < |s'.headers| && 0 <= d < |s'.window| && s'.first + d < Indexed(s')
        && Known(s'.headers, i, s'.first + d)
      ensures PlacedIn(s'.headers[i], s'.first + d, s'.window[d])
    {
      assert PlacedIn(s.headers[i], s.first + d, s.window[d]);
    }
  }

  lemma WindowThread(s: State, s': State, p: Pc)
    requires ThreadOk(s, p) && s'.headers == s.headers && s'.bs == s.bs && s'.first == s.first && s'.head == s.head
    requires |s'.window| >= |s.window| && s'.window[..|s.window|] == s.window
    ensures ThreadOk(s', p)
  {
    hide IndexKnown, Num;
    assert forall d | 0 <= d < |s.window| :: s'.window[d] == s'.window[..|s.window|][d];
  }

  /** Linking changes nothing but the blocks and what the program stores of the window. */
  lemma LinkChanges(s: State, b: nat)
    requires Enabled(s, Obtain(b))
    ensures var s' := Link(s, b);
            s' == s.(tailBlock := Some(b), blocks := s'.blocks, slotsUsed := s'.slotsUsed, window := s.window + [b],
                     producer := StoreBase)
  {
  }

  lemma LinkBlocks(s: State, b: nat)
    requires Inv(s) && s.producer.Requisition? && Enabled(s, Obtain(b))
    ensures BlocksOk(Link(s, b))
  {
    hide IndexOk, ListOk, ProducerOk, ThreadsOk, BlockOk, EarlyDone, Faithful, Link;
    var s' := Link(s, b);
    LinkChanges(s, b);
    SameEarly(s, s');
    LinkSizes(s, b);
    forall d | 0 <= d < |s'.window| ensures BlockOk(s', s'.first + d, s'.window[d]) {
      if d < |s.window| { LinkOldBlock(s, b, d); } else { LinkNewBlock(s, b); }
    }
  }

  lemma LinkKeeps(s: State, b: nat)
    requires Inv(s) && s.producer.Requisition? && Enabled(s, Obtain(b))
    ensures Inv(Link(s, b))
  {
    hide IndexOk, ListOk, ProducerOk, ThreadOk, BlocksOk, Faithful, Link;
    var s' := Link(s, b);
    LinkChanges(s, b);
    LinkIndex(s, b);
    LinkList(s, b);
    LinkBlocks(s, b);
    forall t | 0 <= t < |s.threads| ensures ThreadOk(s', s'.threads[t]) { WindowThread(s, s', s.threads[t]); }
  }

  lemma LinkSizes(s: State, b: nat)
    requires Inv(s) && s.producer.Requisition? && Enabled(s, Obtain(b))
    ensures forall c | 0 <= c < |Link(s, b).blocks| ::
              |Link(s, b).blocks[c].slots| == s.bs && |Link(s, b).blocks[c].flags| == s.bs
  {
    hide IndexOk, ListOk, ProducerOk, ThreadsOk, BlockOk, EarlyDone, Faithful;
  }

  // ---------------------------------------------------------------------------
  // The entry of the new block
  // ---------------------------------------------------------------------------

  lemma EntryHeader(h: Header, k: nat, block: Option<nat>)
    requires HeaderOk(h)
    ensures var h' := h.(entries := Upd(h.entries, Pos(h, k), Some(Entry(k, block))));
            && HeaderOk(h') && EntryAt(h', Pos(h', k)) == Some(Entry(k, block))
            && (forall l :: Pos(h', l) == Pos(h, l))
            && (forall q :: EntryAt(h, q).Some? ==> EntryAt(h', q).Some?)
            && forall l: nat, c | l < k + h.size && k < l + h.size && l != k && PlacedIn(h, l, c) :: PlacedIn(h', l, c)
  {
    var h' := h.(entries := Upd(h.entries, Pos(h, k), Some(Entry(k, block))));
    forall l ensures Pos(h', l) == Pos(h, l) { }
    forall l: nat, c | l < k + h.size && k < l + h.size && l != k && PlacedIn(h, l, c) ensures PlacedIn(h', l, c) {
      if Pos(h, l) == Pos(h, k) { ModEqual(l + h.off, k + h.off, h.size); }
    }
  }

  /** What the stores of base and block leave in the entry of the newest block. */
  function StoredBlock(s: State): Option<nat> {
    if s.producer.StoreBase? then OldEntry(s).block else Some(TailBlock(s))
  }

  lemma StoreHeaders(s: State)
    requires Inv(s) && Storing(s.producer)
    ensures var s', k := Produce(s), s.Numbers() - 1;
            var cur, b := Cur(s.headers), s.window[|s.window| - 1];
            && k == Num(s.bs, s.tail) == Blocks(s.bs, s.tail) && s.tailBlock == Some(b) && s.prFront == Pos(cur, k)
            && s'.headers == s.headers[|s.headers| - 1 :=
                               cur.(entries := Upd(cur.entries, Pos(cur, k), Some(Entry(k, StoredBlock(s)))))]
            && s' == s.(headers := s'.headers, producer := if s.producer.StoreBase? then StoreBlock else StoreFront)
  {
    hide ThreadsOk, BlocksOk, Faithful, Ring, Placed, Dated, Linked, Pos, Num, Blocks;
    AtBoundary(s.bs, s.tail);
    RingNonempty(s.headers, s);
  }

  lemma StoreIndex(s: State)
    requires Inv(s) && Storing(s.producer)
    ensures IndexOk(Produce(s)) && ProducerOk(Produce(s))
  {
    hide ListOk, ThreadsOk, BlocksOk, Faithful, Pos, Num, Blocks, HeaderOk, PlacedIn;
    var s', k := Produce(s), s.Numbers() - 1;
    var cur := Cur(s.headers);
    RingNonempty(s.headers, s);
    StoreHeaders(s);
    hide Produce, StoredBlock;
    assert HeaderOk(cur);
    EntryHeader(cur, k, StoredBlock(s));
    forall i, d | 0 <= i < |s'.headers| && 0 <= d < |s'.window| && s'.first + d < Indexed(s')
                  && Known(s'.headers, i, s'.first + d)
      ensures PlacedIn(s'.headers[i], s'.first + d, s'.window[d])
    {
      if s.first + d < k {
        assert Known(s.headers, i, s.first + d);
        assert PlacedIn(s.headers[i], s.first + d, s.window[d]);
      } else {
        assert i == |s.headers| - 1;
        NewestIsPlaced(s);
      }
    }
    StoreWritten(s);
  }

  /** Once both are stored the newest block is in the index. */
  lemma NewestIsPlaced(s: State)
    requires Inv(s) && s.producer.StoreBlock?
    ensures PlacedIn(Cur(Produce(s).headers), s.Numbers() - 1, s.window[|s.window| - 1])
  {
    hide ThreadsOk, BlocksOk, Faithful, Pos, Num, Blocks, HeaderOk, Placed, Dated;
    RingNonempty(s.headers, s);
    StoreHeaders(s);
    hide Produce;
    assert HeaderOk(Cur(s.headers));
    EntryHeader(Cur(s.headers), s.Numbers() - 1, StoredBlock(s));
  }

  lemma StoreWritten(s: State)
    requires Inv(s) && Storing(s.producer)
    ensures var s' := Produce(s);
            && EntryAt(Cur(s'.headers), s'.prFront).Some? && OldEntry(s').base == Num(s.bs, s.tail)
            && (FrontWritten(Cur(s.headers)) ==> FrontWritten(Cur(s'.headers)))
  {
    hide ListOk, ThreadsOk, BlocksOk, Faithful, Num, Blocks, Placed, Dated;
    RingNonempty(s.headers, s);
    StoreHeaders(s);
    assert HeaderOk(Cur(s.headers));
  }

  /** The headers keep their entries; where there was one there still is one. */
  ghost predicate EntriesSurvive(hs: seq<Header>, hs': seq<Header>) {
    && |hs'| == |hs|
    && forall i | 0 <= i < |hs| ::
         && (forall k :: Pos(hs'[i], k) == Pos(hs[i], k))
         && (forall q :: EntryAt(hs[i], q).Some? ==> EntryAt(hs'[i], q).Some?)
         && hs'[i].size == hs[i].size && hs'[i].hi == hs[i].hi
         && (i < |hs| - 1 ==> hs'[i] == hs[i])
  }

  lemma ThreadSurvives(s: State, s': State, p: Pc)
    requires ThreadOk(s, p) && EntriesSurvive(s.headers, s'.headers)
    requires s'.bs == s.bs && s'.first == s.first && s'.head == s.head && s'.window == s.window
    ensures ThreadOk(s', p)
  {
    hide Num, Pos, ChunkEnd;
  }

  /** A step on the newest header alone. */
  lemma HeaderStepKeeps(s: State, s': State)
    requires Inv(s) && s' == s.(headers := s'.headers, prFront := s'.prFront, producer := s'.producer)
    requires IndexOk(s') && ProducerOk(s') && EntriesSurvive(s.headers, s'.headers) && Built(s') == Built(s)
    ensures Inv(s')
  {
    hide IndexOk, ListOk, ProducerOk, ThreadOk, BlockOk, EarlyDone, Faithful, EntriesSurvive;
    SameList(s, s');
    SameEarly(s, s');
    forall d | 0 <= d < |s.window| ensures BlockOk(s', s.first + d, s.window[d]) {
      SameBlock(s, s', s.first + d, s.window[d]);
    }
    forall t | 0 <= t < |s.threads| ensures ThreadOk(s', s'.threads[t]) { ThreadSurvives(s, s', s.threads[t]); }
  }

  lemma StoreKeeps(s: State)
    requires Inv(s) && Storing(s.producer)
    ensures Inv(Produce(s))
  {
    hide ListOk, ThreadsOk, BlocksOk, Faithful, Pos, Num, Blocks, Placed, Dated, PlacedIn;
    var s', cur := Produce(s), Cur(s.headers);
    StoreIndex(s);
    StoreHeaders(s);
    RingNonempty(s.headers, s);
    EntryHeader(cur, s.Numbers() - 1, StoredBlock(s)) by { assert HeaderOk(cur); }
    hide HeaderOk, EntryAt, Produce;
    assert EntriesSurvive(s.headers, s'.headers);
    HeaderStepKeeps(s, s');
  }

  lemma FrontIrrelevant(h: Header, front: nat)
    ensures var h' := h.(front := front);
            && (forall k :: Pos(h', k) == Pos(h, k)) && (forall q :: EntryAt(h', q) == EntryAt(h, q))
            && (HeaderOk(h) ==> HeaderOk(h')) && forall k, b :: PlacedIn(h', k, b) == PlacedIn(h, k, b)
  {
    var h' := h.(front := front);
    assert forall k :: Pos(h', k) == Pos(h, k);
    assert forall q :: EntryAt(h', q) == EntryAt(h, q);
  }

  lemma StoreFrontIndex(s: State)
    requires Inv(s) && s.producer.StoreFront?
    ensures IndexOk(Produce(s)) && ProducerOk(Produce(s)) && EntriesSurvive(s.headers, Produce(s).headers)
  {
    hide ListOk, ThreadsOk, BlocksOk, Faithful, Pos, Num, Blocks, HeaderOk, PlacedIn, EntryAt;
    var s', cur := Produce(s), Cur(s.headers);
    RingNonempty(s.headers, s);
    FrontIrrelevant(cur, s.prFront);
    NextPosition(cur, s.Numbers() - 1);
    forall i, d | 0 <= i < |s'.headers| && 0 <= d < |s'.window| && s'.first + d < Indexed(s')
        && Known(s'.headers, i, s'.first + d)
      ensures PlacedIn(s'.headers[i], s'.first + d, s'.window[d])
    {
      assert Known(s.headers, i, s.first + d);
      assert PlacedIn(s.headers[i], s.first + d, s.window[d]);
    }
  }

  lemma StoreFrontKeeps(s: State)
    requires Inv(s) && s.producer.StoreFront?
    ensures Inv(Produce(s))
  {
    hide ListOk, ThreadsOk, BlocksOk, Faithful, IndexOk, EntriesSurvive;
    StoreFrontIndex(s);
    HeaderStepKeeps(s, Produce(s));
  }

  // ---------------------------------------------------------------------------
  // Elements, claims and other blocks
  // ---------------------------------------------------------------------------

  lemma ConstructBlock(s: State, d: nat)
    requires Inv(s) && s.producer.Construct? && d < |s.window|
    ensures BlockOk(Produce(s), s.first + d, s.window[d])
  {
    hide IndexOk, ThreadsOk, Faithful, Done, Num, Base, EarlyDone;
    var s', n := Produce(s), |s.window|;
    SameDone(s, s');
    NumFacts(s.bs, s.tail);
    assert BlockOk(s, s.first + d, s.window[d]);
    BaseOrder(s.bs, s.first + d, Num(s.bs, s.tail));
    if d < n - 1 {
      assert s.window[d] != s.window[n - 1];
      assert BlockAt(s', s.window[d]) == BlockAt(s, s.window[d]);
    }
  }

  lemma ConstructKeeps(s: State)
    requires Inv(s) && s.producer.Construct?
    ensures Inv(Produce(s))
  {
    hide Ring, Placed, Dated, Pos, ThreadOk, BlockOk, EarlyDone, Faithful, Num, Blocks;
    var s' := Produce(s);
    ConstructList(s);
    SameEarly(s, s');
    hide ListOk;
    forall d | 0 <= d < |s.window| ensures BlockOk(s', s.first + d, s.window[d]) { ConstructBlock(s, d); }
    forall t | 0 <= t < |s.threads| ensures ThreadOk(s', s'.threads[t]) { SameForThread(s, s', s.threads[t]); }
  }

  lemma ConstructList(s: State)
    requires Inv(s) && s.producer.Construct?
    ensures ListOk(Produce(s)) && Published(Produce(s)) == Published(s)
    ensures forall b | 0 <= b < |Produce(s).blocks| ::
              |Produce(s).blocks[b].slots| == s.bs && |Produce(s).blocks[b].flags| == s.bs
  {
    hide IndexOk, ThreadsOk, BlockOk, EarlyDone, Faithful, Num, Blocks;
  }

  function Published(s: State): nat { Blocks(s.bs, s.tail) }

  lemma PublishKeeps(s: State)
    requires Inv(s) && s.producer.Publish?
    ensures Inv(Produce(s))
  {
    hide Ring, Placed, Pos, ThreadOk, EarlyDone, Faithful, Num, Blocks, Base, FrontWritten;
    var s' := Produce(s);
    AtBoundary(s.bs, s.tail);
    BlocksOrder(s.bs, s.tail, s.tail + 1);
    SameList(s, s');
    SameEarly(s, s');
    SameDone(s, s');
    hide ListOk, Done;
    forall d | 0 <= d < |s.window| ensures BlockOk(s', s.first + d, s.window[d]) {
      assert BlockOk(s, s.first + d, s.window[d]);
    }
    forall t | 0 <= t < |s.threads| ensures ThreadOk(s', s'.threads[t]) { SameForThread(s, s', s.threads[t]); }
  }

  /** Claimed elements are not done before and not done after. */
  lemma ClaimDone(s: State, t: Tid, n: nat, j: nat)
    requires Inv(s) && Enabled(s, Claim(t, n))
    ensures Done(Apply(s, Claim(t, n)), j) <==> Done(s, j)
  {
    hide IndexOk, ListOk, BlocksOk, ProducerOk, Faithful;
    var p := Busy(s.head, s.head + n, LoadIndex);
    if s.head <= j < s.head + n {
      assert Owes(s.bs, s.threads[t := p][t], j);
    } else {
      SameOwed(s, t, p, j);
    }
  }

  lemma ClaimKeeps(s: State, t: Tid, n: nat)
    requires Inv(s) && Enabled(s, Claim(t, n))
    ensures Inv(Apply(s, Claim(t, n)))
  {
    hide IndexOk, ListOk, ProducerOk, Faithful;
    var s' := Apply(s, Claim(t, n));
    SameIndex(s, s');
    forall j: nat ensures Done(s', j) <==> Done(s, j) { ClaimDone(s, t, n, j); }
    hide Done;
    forall d | 0 <= d < |s.window| ensures BlockOk(s', s.first + d, s.window[d]) {
      assert BlockOk(s, s.first + d, s.window[d]);
    }
    forall u | 0 <= u < |s.threads| ensures ThreadOk(s', s'.threads[u]) {
      ThreadIsOk(s, u);
      SameForThread(s, s', s.threads[u]);
    }
    hide ThreadOk, BlockOk;
    assert DisjointClaims(s'.threads) by { ClaimDisjoint(s, t, n); }
  }

  lemma ClaimDisjoint(s: State, t: Tid, n: nat)
    requires Inv(s) && Enabled(s, Claim(t, n))
    ensures DisjointClaims(Apply(s, Claim(t, n)).threads)
  {
    hide IndexOk, ListOk, ProducerOk, Faithful, BlocksOk, IndexKnown, BlockKnown;
    forall u | 0 <= u < |s.threads| && s.threads[u].Busy? ensures s.threads[u].last <= s.head { ThreadIsOk(s, u); }
  }

  lemma OtherKeeps(s: State, b: nat, block: Block)
    requires Inv(s) && Enabled(s, Other(b, block))
    ensures Inv(Apply(s, Other(b, block)))
  {
    hide Ring, Placed, Dated, Pos, ThreadOk, EarlyDone, Faithful, Num, Blocks, BlockOk;
    var s' := Apply(s, Other(b, block));
    OtherList(s, b, block);
    SameEarly(s, s');
    hide ListOk;
    forall d | 0 <= d < |s.window| ensures BlockOk(s', s.first + d, s.window[d]) {
      assert BlockOk(s, s.first + d, s.window[d]);
      SameBlock(s, s', s.first + d, s.window[d]);
    }
    forall t | 0 <= t < |s.threads| ensures ThreadOk(s', s'.threads[t]) { SameForThread(s, s', s.threads[t]); }
  }

  lemma OtherList(s: State, b: nat, block: Block)
    requires Inv(s) && Enabled(s, Other(b, block))
    ensures ListOk(Apply(s, Other(b, block))) && b !in s.window
    ensures forall d | 0 <= d < |s.window| :: s.window[d] < |s.blocks|
  {
    hide IndexOk, ThreadsOk, BlocksOk, Faithful, ProducerOk;
  }

  lemma ProduceKeeps(s: State)
    requires Inv(s) && !s.producer.Resting?
    ensures Inv(Produce(s))
  {
    hide Inv, Reuse, Grow;
    match s.producer
    case Checking(_) => if Produce(s) == Reuse(s) { ReuseKeeps(s); } else { CheckingKeeps(s); }
    case NeedRoom => if s.slotsUsed == Cur(s.headers).size { GrowKeeps(s); } else { HasRoomKeeps(s); }
    case Requisition => GiveUpKeeps(s);
    case StoreBase => StoreKeeps(s);
    case StoreBlock => StoreKeeps(s);
    case StoreFront => StoreFrontKeeps(s);
    case Construct => ConstructKeeps(s);
    case Publish => PublishKeeps(s);
  }

  lemma ApplyKeeps(s: State, a: Action)
    requires Inv(s) && Enabled(s, a)
    ensures Inv(Apply(s, a))
  {
    hide Inv, Produce, Consume, Link;
    match a
    case Enqueue => EnqueueKeeps(s);
    case Full => GiveUpKeeps(s);
    case Obtain(b) => LinkKeeps(s, b);
    case Produces => ProduceKeeps(s);
    case Claim(t, n) => ClaimKeeps(s, t, n);
    case Consumes(t) => ConsumeKeeps(s, t);
    case Other(b, block) => OtherKeeps(s, b, block);
  }
}
