/**
 Every step of the producer, and of the rest of the queue, keeps the invariant of the
 implicit producer's index: inserting blocks, growing the index, constructing and
 publishing elements, and taking blocks out again when an enqueue cannot go through.
 */
module ImplicitIndexProducer {
  import opened Wrappers
  import opened ThreadCounting
  import opened ModArithmetic
  import opened IndexBlocks
  import opened ImplicitIndex
  import opened ImplicitIndexInvariant
  import opened ImplicitIndexConsumers

  // ---------------------------------------------------------------------------
  // Frames
  // ---------------------------------------------------------------------------

  /** A step on the index alone. */
  lemma IndexStepKeeps(s: State, s': State)
    requires Inv(s)
    requires s'.(headers := s.headers, entries := s.entries, top := s.top, producer := s.producer) == s
    requires IndexOk(s'.headers, s'.entries, s'.stages, Published(s), s'.top) && ProducerOk(s') && Built(s') == Built(s)
    requires forall t | 0 <= t < |s.threads| :: ThreadOk(s', t, s.threads[t])
    ensures Inv(s')
  {
    hide IndexOk, ProducerOk, ThreadOk, Counted, Filled, Mine, Attended, Faithful, Distinct, Outstanding;
    assert Published(s') == Published(s);
    forall k | 0 <= k < |s'.stages| ensures StageOk(s', k) { assert StageOk(s, k); }
  }

  /** A step on nothing but the producer's place in its program. */
  lemma ToKeeps(s: State, p: Producer)
    requires Inv(s) && ProducerOk(s.To(p)) && Built(s.To(p)) == Built(s)
    ensures Inv(s.To(p))
  {
    hide IndexOk, ProducerOk, ThreadOk, StageOk;
    forall t | 0 <= t < |s.threads| ensures ThreadOk(s.To(p), t, s.threads[t]) {
      SameForThread(s, s.To(p), t, s.threads[t]);
    }
    IndexStepKeeps(s, s.To(p));
  }

  /** Valid keys stay valid, and headers keep their entries. */
  ghost predicate KeysSurvive(hs: seq<Header>, es: seq<Entry>, hs': seq<Header>, es': seq<Entry>) {
    && |hs'| == |hs|
    && (forall i | 0 <= i < |hs| :: hs'[i] == hs[i].(tail := hs'[i].tail) && (i < |hs| - 1 ==> hs'[i] == hs[i]))
    && forall h, q | EntryAt(h, es, q).key.Some? :: EntryAt(h, es', q).key.Some?
  }

  lemma ThreadSurvives(s: State, s': State, t: Tid, p: Pc)
    requires ThreadOk(s, t, p)
    requires s'.(headers := s.headers, entries := s.entries, top := s.top, producer := s.producer) == s
    requires KeysSurvive(s.headers, s.entries, s'.headers, s'.entries)
    ensures ThreadOk(s', t, p)
  {
    hide Num, ChunkEnd, StageKnown;
    if p.Busy? && !p.step.LoadHeader? {
      var h := p.step.h;
      assert s'.headers[h] == s.headers[h].(tail := s'.headers[h].tail);
      forall q ensures EntryAt(s'.headers[h], s.entries, q) == EntryAt(s.headers[h], s.entries, q) { }
    }
  }

  lemma ThreadsSurvive(s: State, s': State)
    requires Inv(s)
    requires s'.(headers := s.headers, entries := s.entries, top := s.top, producer := s.producer) == s
    requires KeysSurvive(s.headers, s.entries, s'.headers, s'.entries)
    ensures forall t | 0 <= t < |s.threads| :: ThreadOk(s', t, s.threads[t])
  {
    hide ThreadOk, IndexOk, StageOk, ProducerOk, KeysSurvive;
    forall t | 0 <= t < |s.threads| ensures ThreadOk(s', t, s.threads[t]) {
      ThreadSurvives(s, s', t, s.threads[t]);
    }
  }

  // ---------------------------------------------------------------------------
  // Inserting a block into the index
  // ---------------------------------------------------------------------------

  lemma AfterIsNext(h: Header, n: int)
    requires h.tail == Pos(h, n - 1)
    ensures After(h) == Pos(h, n)
  {
    ModAdd(n - 1 + h.off, 1, h.cap);
  }

  lemma BeforeIsPrevious(h: Header, n: int)
    requires h.tail == Pos(h, n)
    ensures Before(h) == Pos(h, n - 1)
  {
    ModAdd(n + h.off, -1, h.cap);
  }

  lemma EnqueueKeeps(s: State, n: nat)
    requires Inv(s) && s.producer.Resting?
    ensures Inv(NextBlock(s, s.tail + n))
  {
    hide Blocks, Pos, IndexOk, StageOk, ThreadOk;
    BlocksOrder(s.bs, s.tail, s.tail + n);
    ToKeeps(s, NextBlock(s, s.tail + n).producer);
  }

  lemma FullKeeps(s: State)
    requires Inv(s) && (s.producer.Probe? || s.producer.NeedIndex?)
    ensures Inv(s.To(Undo(Published(s))))
  {
    hide Blocks, Pos, IndexOk, StageOk, ThreadOk;
    ToKeeps(s, Undo(Published(s)));
  }

  lemma ProbeKeeps(s: State)
    requires Inv(s) && s.producer.Probe?
    ensures Inv(Produce(s))
  {
    var cur, n := Cur(s.headers), |s.stages|;
    AfterIsNext(cur, n);
    CurIsLast(s.headers, s.entries);
    assert Recent(EntryAt(cur, s.entries, Pos(cur, n)), cur.cap, s.top);
    if n < s.top { assert Rewound(s.stages, n); }
    hide Blocks, Pos, IndexOk, StageOk, ThreadOk, EntryAt;
    ToKeeps(s, Produce(s).producer);
  }

  /** While blocks are inserted none is taken out. */
  lemma NoneIsRewound(s: State)
    requires Inv(s) && (s.producer.NeedIndex? || s.producer.StoreKey?)
    ensures Inserting(s.stages, Published(s))
  {
    hide Blocks, Pos, IndexOk, ThreadOk, Counted, Filled, Mine, Attended;
    forall k: nat | k < |s.stages| ensures !Rewound(s.stages, k) { assert StageOk(s, k); }
  }

  lemma GrownThread(hs: seq<Header>, es: seq<Entry>, blocks: nat, published: nat, bs: Size, next: nat, last: nat,
      step: Step)
    requires hs != [] && Cur(hs) == hs[|hs| - 1] && IndexKnown(hs, es, bs, next, last, step)
    requires last > 0 ==> Num(bs, last - 1) < published
    requires step.LoadTail? ==> EntryAt(Cur(hs), es, Cur(hs).tail).key.Some?
    ensures IndexKnown(MoreHeaders(hs, es, blocks, published), MoreEntries(es, Cur(hs).cap), bs, next, last, step)
  {
    hide Num, ChunkEnd, Grown;
    var hs', es' := MoreHeaders(hs, es, blocks, published), MoreEntries(es, Cur(hs).cap);
    if !step.LoadHeader? {
      var h := hs[step.h];
      assert hs'[step.h] == h || hs'[step.h] == h.(hi := published);
      forall q | EntryAt(h, es, q).key.Some? ensures EntryAt(hs'[step.h], es', q).key.Some? { }
      forall k ensures Pos(hs'[step.h], k) == Pos(h, k) { }
    }
  }

  lemma GrowThreads(s: State, s': State)
    requires Inv(s) && s.producer.NeedIndex? && s' == Grow(s, s.producer.goal)
    ensures forall t | 0 <= t < |s.threads| :: ThreadOk(s', t, s.threads[t])
  {
    CurIsLast(s.headers, s.entries);
    assert s.headers != [];
    hide Ring, Placed, Windowed, Leftovers, KeysRecent, KeysKnown, Pos, Num, Blocks, ProducerOk, StageOk, Grown;
    forall t | 0 <= t < |s.threads| ensures ThreadOk(s', t, s.threads[t]) {
      assert ThreadOk(s, t, s.threads[t]);
      if s.threads[t].Busy? {
        var Busy(next, last, step) := s.threads[t];
        if last > 0 { PublishedBlock(s.bs, last - 1, s.tail); }
        if step.LoadTail? {
          ClaimedIsLive(s, t);
          TailIsKeyed(s, Num(s.bs, next));
        }
        GrownThread(s.headers, s.entries, |s.stages|, Published(s), s.bs, next, last, step);
      }
    }
  }

  lemma GrownSlots(cur: Header, es: seq<Entry>, blocks: nat)
    ensures var g := Grown(cur, |es|, blocks);
            && g.tail == Pos(g, blocks - 1) && Pos(g, blocks) == cur.cap
            && EntryAt(g, MoreEntries(es, cur.cap), cur.cap) == NoEntry
  {
    ModUnique(cur.cap - 1, 2 * cur.cap, 0, cur.cap - 1);
    ModUnique(cur.cap, 2 * cur.cap, 0, cur.cap);
  }

  lemma GrowProducer(s: State)
    requires Inv(s) && s.producer.NeedIndex?
    ensures ProducerOk(Produce(s)) && Cur(Produce(s).headers) == Grown(Cur(s.headers), |s.entries|, |s.stages|)
  {
    GrownSlots(Cur(s.headers), s.entries, |s.stages|);
    CurIsLast(s.headers, s.entries);
    assert s.headers != [];
    hide IndexOk, ThreadOk, StageOk, Pos, EntryAt, Grown, Blocks;
    assert Published(Produce(s)) == Published(s);
  }

  lemma GrowKeeps(s: State)
    requires Inv(s) && s.producer.NeedIndex?
    ensures Inv(Produce(s))
  {
    var s' := Produce(s);
    assert s.headers != [] && s' == Grow(s, s.producer.goal);
    NoneIsRewound(s);
    IndexGrows(s.headers, s.entries, s.stages, Published(s));
    GrowThreads(s, s');
    GrowProducer(s);
    hide IndexOk, ThreadOk, StageOk, Grown, Blocks, ProducerOk, Inserting;
    assert s'.headers == MoreHeaders(s.headers, s.entries, |s.stages|, Published(s));
    IndexStepKeeps(s, s');
  }

  lemma StoreKeyKeeps(s: State)
    requires Inv(s) && s.producer.StoreKey?
    ensures Inv(Produce(s))
  {
    var s', cur, n := Produce(s), Cur(s.headers), |s.stages|;
    AfterIsNext(cur, n);
    NoneIsRewound(s);
    KeyStored(s.headers, s.entries, s.stages, Published(s), s.top);
    KeysSurviveKey(s.headers, s.entries, Pos(cur, n), EntryAt(cur, s.entries, Pos(cur, n)).(key := Some(n)));
    ThreadsSurvive(s, s');
    hide IndexOk, ThreadOk, StageOk, Pos, EntryAt, PutEntry, Blocks;
    IndexStepKeeps(s, s');
  }

  lemma KeysSurviveKey(hs: seq<Header>, es: seq<Entry>, q: nat, e: Entry)
    requires e.key.Some?
    ensures KeysSurvive(hs, es, hs, PutEntry(Cur(hs), es, q, e))
  {
  }

  lemma KeysSurviveTail(s: State, tail: nat)
    requires s.headers != [] && Cur(s.headers) == s.headers[|s.headers| - 1]
    ensures KeysSurvive(s.headers, s.entries, SetTail(s.headers, tail), s.entries)
  {
    var hs' := SetTail(s.headers, tail);
    forall i | 0 <= i < |hs'| ensures hs'[i] == s.headers[i].(tail := hs'[i].tail) { }
  }

  /** Moving the tail of the ring, to the position that goes with the producer's next step. */
  lemma TailStepKeeps(s: State, tail: nat, p: Producer)
    requires Inv(s) && tail < Cur(s.headers).cap
    requires ProducerOk(s.(headers := SetTail(s.headers, tail)).To(p)) && Built(s.To(p)) == Built(s)
    ensures Inv(s.(headers := SetTail(s.headers, tail)).To(p))
  {
    var s' := s.(headers := SetTail(s.headers, tail)).To(p);
    CurIsLast(s.headers, s.entries);
    TailMoves(s.headers, s.entries, s.stages, Published(s), s.top, tail);
    KeysSurviveTail(s, tail);
    ThreadsSurvive(s, s');
    hide IndexOk, ThreadOk, StageOk, Pos, ProducerOk;
    IndexStepKeeps(s, s');
  }

  lemma SlotStays(s: State, tail: nat)
    requires s.headers != []
    ensures var cur' := Cur(SetTail(s.headers, tail));
            && cur' == Cur(s.headers).(tail := tail)
            && (forall k :: Pos(cur', k) == Pos(Cur(s.headers), k))
            && forall q :: EntryAt(cur', s.entries, q) == EntryAt(Cur(s.headers), s.entries, q)
  {
  }

  lemma StoreTailKeeps(s: State)
    requires Inv(s) && s.producer.StoreTail?
    ensures Inv(Produce(s))
  {
    var cur := Cur(s.headers);
    AfterIsNext(cur, |s.stages|);
    CurIsLast(s.headers, s.entries);
    SlotStays(s, After(cur));
    TailStep(s, After(cur), Requisition(s.producer.goal));
    hide IndexOk, ThreadOk, StageOk, Pos, EntryAt, Blocks;
    TailStepKeeps(s, After(cur), Requisition(s.producer.goal));
  }

  lemma RewindKeeps(s: State)
    requires Inv(s) && s.producer.Rewind?
    ensures Inv(Produce(s))
  {
    var cur := Cur(s.headers);
    BeforeIsPrevious(cur, |s.stages|);
    CurIsLast(s.headers, s.entries);
    SlotStays(s, Before(cur));
    TailStep(s, Before(cur), ClearSlot(s.producer.goal));
    hide IndexOk, ThreadOk, StageOk, Pos, EntryAt, Blocks;
    TailStepKeeps(s, Before(cur), ClearSlot(s.producer.goal));
  }

  lemma UndoRewindKeeps(s: State)
    requires Inv(s) && s.producer.UndoRewind?
    ensures Inv(Produce(s))
  {
    var cur := Cur(s.headers);
    BeforeIsPrevious(cur, TailNum(s));
    CurIsLast(s.headers, s.entries);
    SlotStays(s, Before(cur));
    TailStep(s, Before(cur), Undo(s.producer.i + 1));
    hide IndexOk, ThreadOk, StageOk, Pos, EntryAt, Blocks;
    TailStepKeeps(s, Before(cur), Undo(s.producer.i + 1));
  }

  lemma TailStep(s: State, tail: nat, p: Producer)
    requires s.headers != []
    ensures var s' := s.(headers := SetTail(s.headers, tail)).To(p);
            Published(s') == Published(s) && Cur(s'.headers).tail == tail
  {
  }

  lemma RequisitionKeeps(s: State)
    requires Inv(s) && s.producer.Requisition?
    ensures Inv(Produce(s))
  {
    hide IndexOk, ThreadOk, StageOk, Pos, EntryAt, Blocks;
    ToKeeps(s, Rewind(s.producer.goal));
  }

  lemma ClearSlotKeeps(s: State)
    requires Inv(s) && s.producer.ClearSlot?
    ensures Inv(Produce(s))
  {
    var cur, n := Cur(s.headers), |s.stages|;
    var q := Pos(cur, n);
    AfterIsNext(cur, n);
    CurIsLast(s.headers, s.entries);
    assert Recent(EntryAt(cur, s.entries, q), cur.cap, s.top);
    assert Rewound(s.stages, n);
    assert PutEntry(cur, s.entries, q, EntryAt(cur, s.entries, q)) == s.entries;
    hide IndexOk, ThreadOk, StageOk, Pos, EntryAt, PutEntry, Blocks;
    ToKeeps(s, Undo(Published(s)));
  }

  // ---------------------------------------------------------------------------
  // Blocks
  // ---------------------------------------------------------------------------

  /** A step on blocks that are not this producer's, or on the one it has requisitioned. */
  lemma BlocksStepKeeps(s: State, s': State)
    requires Inv(s)
    requires s'.(blocks := s.blocks, producer := s.producer) == s
    requires |s.blocks| <= |s'.blocks|
    requires forall b | 0 <= b < |s.blocks| && s.blocks[b].place.Queued? :: s'.blocks[b] == s.blocks[b]
    requires forall b | 0 <= b < |s'.blocks| :: |s'.blocks[b].slots| == s.bs
    requires ProducerOk(s') && Built(s') == Built(s)
    ensures Inv(s')
  {
    hide IndexOk, ProducerOk, Filled, Faithful, Distinct, Outstanding, Unclaimed;
    assert Published(s') == Published(s);
    forall k | 0 <= k < |s'.stages| ensures StageOk(s', k) { assert StageOk(s, k); }
    hide StageOk, ThreadOk;
    forall t | 0 <= t < |s.threads| ensures ThreadOk(s', t, s.threads[t]) {
      SameForThread(s, s', t, s.threads[t]);
    }
  }

  lemma ObtainKeeps(s: State, b: nat)
    requires Inv(s) && Enabled(s, Obtain(b))
    ensures Inv(Apply(s, Obtain(b)))
  {
    hide IndexOk, StageOk, ThreadOk, Pos, Num, Blocks, EntryAt;
    BlocksStepKeeps(s, Apply(s, Obtain(b)));
  }

  lemma OtherKeeps(s: State, b: nat, block: Block)
    requires Inv(s) && Enabled(s, Other(b, block))
    ensures Inv(Apply(s, Other(b, block)))
  {
    hide IndexOk, StageOk, ThreadOk, Pos, Num, Blocks, EntryAt;
    BlocksStepKeeps(s, Apply(s, Other(b, block)));
  }

  /** Nobody has claimed anything of a block that is not published. */
  lemma NothingClaimed(s: State, k: nat)
    requires Inv(s) && Published(s) <= k
    ensures Outstanding(s.threads, s.bs, k) == 0 && Unclaimed(s.bs, k, s.head) == s.bs
    ensures s.tail <= Base(s.bs, k)
  {
    hide IndexOk, StageOk, ProducerOk, Base, Blocks;
    BlocksFacts(s.bs, s.tail);
    BaseOrder(s.bs, Published(s), k);
    forall t | 0 <= t < |s.threads| ensures OverlapOf(s.bs, k)(s.threads[t]) == 0 {
      assert ThreadOk(s, t, s.threads[t]);
    }
    SumZero(s.threads, OverlapOf(s.bs, k));
  }

  lemma StoreValueStage(s: State, k: nat)
    requires Inv(s) && s.producer.StoreValue? && k <= |s.stages|
    ensures StageOk(Produce(s), k)
  {
    hide IndexOk, Blocks, Num, EntryAt, PutEntry, Outstanding, Unclaimed, Base;
    var s', n := Produce(s), |s.stages|;
    assert Published(s') == Published(s) && Built(s') == Built(s);
    NothingClaimed(s, n);
    if k < n {
      assert StageOk(s, k);
    } else {
      assert Filled(s.bs, n, s.blocks[s.producer.b].slots, s.tail);
    }
  }

  lemma StoreValueThread(s: State, t: Tid)
    requires Inv(s) && s.producer.StoreValue? && t < |s.threads|
    ensures ThreadOk(Produce(s), t, s.threads[t])
  {
    var s', cur := Produce(s), Cur(s.headers);
    var e := EntryAt(cur, s.entries, cur.tail).(value := Some(s.producer.b));
    KeysSurviveKey(s.headers, s.entries, cur.tail, e);
    var s1 := s.(entries := PutEntry(cur, s.entries, cur.tail, e));
    ThreadsSurvive(s, s1);
    hide Inv, EntryAt, PutEntry, IndexKnown, Num, Blocks;
    assert ThreadOk(s1, t, s.threads[t]);
  }

  lemma StoreValueKeeps(s: State)
    requires Inv(s) && s.producer.StoreValue?
    ensures Inv(Produce(s))
  {
    var s', n := Produce(s), |s.stages|;
    BlockStored(s.headers, s.entries, s.stages, Published(s), s.top, s.producer.b);
    hide IndexOk, StageOk, ThreadOk, Pos, Num, Blocks, EntryAt, PutEntry, Faithful, Distinct;
    forall k | 0 <= k < |s'.stages| ensures StageOk(s', k) { StoreValueStage(s, k); }
    forall t | 0 <= t < |s.threads| ensures ThreadOk(s', t, s.threads[t]) { StoreValueThread(s, t); }
    StoreValueProducer(s);
  }

  lemma StoreValueProducer(s: State)
    requires Inv(s) && s.producer.StoreValue?
    ensures ProducerOk(Produce(s))
  {
    hide IndexOk, StageOk, ThreadOk, Pos, Blocks, EntryAt, PutEntry;
    assert Published(Produce(s)) == Published(s);
  }

  // ---------------------------------------------------------------------------
  // Elements
  // ---------------------------------------------------------------------------

  /** The block into which the next element goes. */
  lemma ConstructsInto(s: State)
    requires Inv(s) && s.producer.Construct? && s.producer.j < s.producer.goal
    ensures var k := Num(s.bs, s.producer.j); k < |s.stages| && s.stages[k].Live? && StageOk(s, k)
  {
    hide IndexOk, Pos, Num, Base, Blocks, Filled, Attended, ThreadOk;
    var j := s.producer.j;
    var k := Num(s.bs, j);
    PublishedBlock(s.bs, j, s.producer.goal);
    NumFacts(s.bs, j);
    BlocksFacts(s.bs, s.tail);
    assert StageOk(s, k);
    if k >= Published(s) { NothingClaimed(s, k); }
  }

  lemma ConstructStage(s: State, l: nat)
    requires Inv(s) && s.producer.Construct? && s.producer.j < s.producer.goal && l < |s.stages|
    ensures StageOk(Produce(s), l)
  {
    hide IndexOk, Pos, Num, Base, Blocks, Attended, Outstanding, Unclaimed, ThreadOk, ProducerOk;
    var j := s.producer.j;
    var k := Num(s.bs, j);
    ConstructsInto(s);
    assert StageOk(s, l);
    NumFacts(s.bs, j);
    BaseOrder(s.bs, k, l);
    BaseOrder(s.bs, l, k);
  }

  lemma ConstructKeeps(s: State)
    requires Inv(s) && s.producer.Construct? && s.producer.j < s.producer.goal
    ensures Inv(Produce(s))
  {
    var s' := Produce(s);
    ConstructsInto(s);
    hide IndexOk, StageOk, ThreadOk, Pos, Num, Blocks, Faithful, Distinct;
    forall l | 0 <= l < |s'.stages| ensures StageOk(s', l) { ConstructStage(s, l); }
    forall t | 0 <= t < |s.threads| ensures ThreadOk(s', t, s.threads[t]) {
      SameForThread(s, s', t, s.threads[t]);
    }
  }

  lemma PublishKeeps(s: State)
    requires Inv(s) && s.producer.Construct? && s.producer.j >= s.producer.goal
    ensures Inv(Produce(s))
  {
    var s' := Produce(s);
    BlocksOrder(s.bs, s.tail, s'.tail);
    MorePublished(s.headers, s.entries, s.stages, Published(s), s.top, Published(s'));
    hide IndexOk, Pos, Num, Blocks, Faithful, Distinct, Outstanding, Filled, Attended, Mine;
    forall k | 0 <= k < |s'.stages| ensures StageOk(s', k) { assert StageOk(s, k); }
    hide StageOk;
    forall t | 0 <= t < |s.threads| ensures ThreadOk(s', t, s.threads[t]) { assert ThreadOk(s, t, s.threads[t]); }
  }

  // ---------------------------------------------------------------------------
  // Undoing
  // ---------------------------------------------------------------------------

  lemma UndoFindsBlock(s: State)
    requires Inv(s) && s.producer.Undo? && s.producer.i < |s.stages|
    ensures UndoSlot(Cur(s.headers), s.entries, s.producer.i) == Pos(Cur(s.headers), s.producer.i)
  {
    var cur, i := Cur(s.headers), s.producer.i;
    CurIsLast(s.headers, s.entries);
    assert Keyed(cur, s.entries, TailNum(s));
    SlotIsRight(cur, s.entries, cur.tail, i);
  }

  /** A change to an unpublished block that is not requisitioned does not concern the threads. */
  lemma UnpublishedThread(s: State, t: Tid, i: nat, stage: Stage)
    requires Inv(s) && t < |s.threads| && Published(s) <= i < |s.stages| && !s.stages[i].Emptied?
             && !s.stages[i].Cleared?
    ensures s.threads[t].Busy? ==> StageKnown(s.stages[i := stage], s.bs, t, s.threads[t].next, s.threads[t].step)
  {
    hide IndexOk, StageOk, ProducerOk, Num, Blocks;
    assert ThreadOk(s, t, s.threads[t]);
    if s.threads[t].Busy? && s.threads[t].next < s.threads[t].last { PublishedBlock(s.bs, s.threads[t].next, s.tail); }
  }

  lemma UndoThread(s: State, t: Tid)
    requires Inv(s) && s.producer.Undo? && s.producer.i < |s.stages| && t < |s.threads|
    ensures ThreadOk(Produce(s), t, s.threads[t])
  {
    var s', cur, i := Produce(s), Cur(s.headers), s.producer.i;
    CurIsLast(s.headers, s.entries);
    UndoFindsBlock(s);
    assert PlacedIn(cur, s.headers[|s.headers| - 1], s.entries, i, s.stages[i].b) by {
      assert Known(s.headers, |s.headers| - 1, i);
    }
    KeysSurviveKey(s.headers, s.entries, Pos(cur, i), EntryAt(cur, s.entries, Pos(cur, i)).(value := None));
    var s1 := s.(entries := s'.entries);
    ThreadsSurvive(s, s1);
    UnpublishedThread(s, t, i, Undone(s.stages[i].b));
    hide Inv, EntryAt, PutEntry, IndexKnown, Num, Blocks, StageKnown;
    assert ThreadOk(s1, t, s.threads[t]);
  }

  lemma UndoStage(s: State, k: nat)
    requires Inv(s) && s.producer.Undo? && s.producer.i < |s.stages| && k < |s.stages|
    ensures StageOk(Produce(s), k)
  {
    hide IndexOk, ThreadOk, Pos, Num, Blocks, Filled, Outstanding, Unclaimed, UndoSlot, EntryAt;
    assert StageOk(s, k) && StageOk(s, s.producer.i);
    assert Published(Produce(s)) == Published(s);
  }

  lemma UndoIndex(s: State)
    requires Inv(s) && s.producer.Undo? && s.producer.i < |s.stages|
    ensures var s' := Produce(s); IndexOk(s'.headers, s'.entries, s'.stages, Published(s'), s'.top)
  {
    var cur, i := Cur(s.headers), s.producer.i;
    CurIsLast(s.headers, s.entries);
    UndoFindsBlock(s);
    BlockCleared(s.headers, s.entries, s.stages, Published(s), s.top, |s.headers| - 1, i, Undone(s.stages[i].b));
    hide IndexOk, StageOk, ThreadOk, Pos, Num, Blocks, EntryAt, PutEntry, Faithful, Distinct, UndoSlot, ProducerOk;
  }

  lemma UndoProducer(s: State)
    requires Inv(s) && s.producer.Undo? && s.producer.i < |s.stages|
    ensures ProducerOk(Produce(s))
  {
    hide IndexOk, StageOk, ThreadOk, Pos, Num, Blocks, EntryAt, PutEntry, Faithful, Distinct, UndoSlot;
  }

  lemma UndoKeeps(s: State)
    requires Inv(s) && s.producer.Undo? && s.producer.i < |s.stages|
    ensures Inv(Produce(s))
  {
    hide IndexOk, StageOk, ThreadOk, Pos, Num, Blocks, EntryAt, PutEntry, Faithful, Distinct, UndoSlot, ProducerOk;
    var s' := Produce(s);
    UndoIndex(s);
    UndoProducer(s);
    forall k | 0 <= k < |s'.stages| ensures StageOk(s', k) { UndoStage(s, k); }
    forall t | 0 <= t < |s.threads| ensures ThreadOk(s', t, s.threads[t]) { UndoThread(s, t); }
  }

  lemma UndoEndKeeps(s: State)
    requires Inv(s) && s.producer.Undo? && s.producer.i >= |s.stages|
    ensures Inv(Produce(s))
  {
    hide IndexOk, StageOk, ThreadOk, Pos, Blocks;
    ToKeeps(s, UndoFree(Published(s)));
  }

  lemma UndoFreeStage(s: State, k: nat)
    requires Inv(s) && s.producer.UndoFree? && s.producer.i < |s.stages| && k < |s.stages|
    ensures StageOk(Produce(s), k)
  {
    hide IndexOk, ThreadOk, Pos, Num, Blocks, Filled, Outstanding, Unclaimed;
    assert StageOk(s, k) && StageOk(s, s.producer.i);
  }

  lemma UndoFreeKeeps(s: State)
    requires Inv(s) && s.producer.UndoFree? && s.producer.i < |s.stages|
    ensures Inv(Produce(s))
  {
    var s', i := Produce(s), s.producer.i;
    StageMoves(s.headers, s.entries, s.stages, Published(s), s.top, i, Dropped);
    hide IndexOk, StageOk, Pos, Num, Blocks, Faithful, Distinct, IndexKnown, StageKnown;
    forall k | 0 <= k < |s'.stages| ensures StageOk(s', k) { UndoFreeStage(s, k); }
    forall t | 0 <= t < |s.threads| ensures ThreadOk(s', t, s.threads[t]) {
      assert ThreadOk(s, t, s.threads[t]);
      UnpublishedThread(s, t, i, Dropped);
    }
  }

  lemma UndoneThread(s: State, t: Tid)
    requires Inv(s) && t < |s.threads| && s.producer.UndoFree? && s.producer.i >= |s.stages|
    ensures ThreadOk(Produce(s), t, s.threads[t])
  {
    hide IndexOk, StageOk, Num, Blocks, IndexKnown;
    assert ThreadOk(s, t, s.threads[t]);
    if s.threads[t].Busy? && s.threads[t].next < s.threads[t].last { PublishedBlock(s.bs, s.threads[t].next, s.tail); }
    if s.threads[t].Busy? && (s.threads[t].step.Clearing? || s.threads[t].step.Freeing?) {
      assert s.threads[t].step.k < Published(s);
    } else if s.threads[t].Busy? {
      NeedsMore(s.headers, s.entries, s.bs, s.threads[t].next, s.threads[t].last, s.threads[t].step);
    }
  }

  /** A thread that is not finishing a block has elements of its claim left. */
  lemma NeedsMore(hs: seq<Header>, es: seq<Entry>, bs: Size, next: nat, last: nat, step: Step)
    requires IndexKnown(hs, es, bs, next, last, step) && !step.Clearing? && !step.Freeing?
    ensures next < last
  {
  }

  lemma UndoneKeeps(s: State)
    requires Inv(s) && s.producer.UndoFree? && s.producer.i >= |s.stages|
    ensures Inv(Produce(s))
  {
    var s' := Produce(s);
    StagesDropped(s.headers, s.entries, s.stages, Published(s), s.top);
    hide IndexOk, ThreadOk, Pos, Num, Blocks, Faithful, Distinct, Counted, Filled, Attended, Mine;
    forall k | 0 <= k < |s'.stages| ensures StageOk(s', k) { assert StageOk(s, k); }
    hide StageOk;
    forall t | 0 <= t < |s.threads| ensures ThreadOk(s', t, s.threads[t]) { UndoneThread(s, t); }
  }

  lemma ProduceKeeps(s: State)
    requires Inv(s) && !s.producer.Resting?
    ensures Inv(Produce(s))
  {
    hide Inv, Produce;
    match s.producer
    case Probe(_) => ProbeKeeps(s);
    case NeedIndex(_) => GrowKeeps(s);
    case StoreKey(_) => StoreKeyKeeps(s);
    case StoreTail(_) => StoreTailKeeps(s);
    case Requisition(_) => RequisitionKeeps(s);
    case Rewind(_) => RewindKeeps(s);
    case ClearSlot(_) => ClearSlotKeeps(s);
    case StoreValue(_, _) => StoreValueKeeps(s);
    case Construct(goal, j) => if j < goal { ConstructKeeps(s); } else { PublishKeeps(s); }
    case Undo(i) => if i < |s.stages| { UndoKeeps(s); } else { UndoEndKeeps(s); }
    case UndoRewind(_) => UndoRewindKeeps(s);
    case UndoFree(i) => if i < |s.stages| { UndoFreeKeeps(s); } else { UndoneKeeps(s); }
  }

  // ---------------------------------------------------------------------------
  // Claims
  // ---------------------------------------------------------------------------

  /** Claiming makes unclaimed elements outstanding ones. */
  lemma ClaimMoves(bs: Size, head: nat, n: nat, k: nat, step: Step)
    ensures Unclaimed(bs, k, head) == Unclaimed(bs, k, head + n) + Overlap(bs, k, Busy(head, head + n, step))
  {
    hide Base;
  }

  lemma ClaimKeeps(s: State, t: Tid, n: nat)
    requires Inv(s) && Enabled(s, Claim(t, n))
    ensures Inv(Apply(s, Claim(t, n)))
  {
    var s' := Apply(s, Claim(t, n));
    hide IndexOk, ProducerOk, Faithful, Distinct, Filled, Mine, Outstanding, Unclaimed, Overlap, Blocks;
    assert Published(s') == Published(s);
    assert ProducerOk(s') by { SameForProducerHead(s, s'); }
    forall k | 0 <= k < |s.stages| ensures StageOk(s', k) {
      assert StageOk(s, k);
      ClaimMoves(s.bs, s.head, n, k, LoadHeader);
      OutstandingUpdate(s.threads, t, s'.threads[t], s.bs, k);
      assert Overlap(s.bs, k, Idle) == 0 by { IdleOwesNothing(s.bs, k); }
    }
    hide StageOk;
    forall u | 0 <= u < |s.threads| ensures ThreadOk(s', u, s'.threads[u]) {
      assert ThreadOk(s, u, s.threads[u]);
      SameForThread(s, s', u, s'.threads[u]);
    }
  }

  lemma IdleOwesNothing(bs: Size, k: nat)
    ensures Overlap(bs, k, Idle) == 0
  {
  }

  lemma SameForProducerHead(s: State, s': State)
    requires s'.(threads := s.threads, head := s.head) == s
    ensures ProducerOk(s') == ProducerOk(s)
  {
  }
}
