/**
 Every step of a consumer keeps the invariant of the implicit producer's index: loading
 the header, its tail and the key there, looking up the block, reading the elements of
 the chunk, counting them, and clearing and returning a block that became empty.
 */
module ImplicitIndexConsumers {
  import opened Wrappers
  import opened ThreadCounting
  import opened ModArithmetic
  import opened IndexBlocks
  import opened ImplicitIndex
  import opened ImplicitIndexInvariant

  lemma OutstandingUpdate(ts: seq<Pc>, t: Tid, p: Pc, bs: Size, k: nat)
    requires t < |ts|
    ensures Outstanding(ts[t := p], bs, k) + Overlap(bs, k, ts[t]) == Outstanding(ts, bs, k) + Overlap(bs, k, p)
    ensures Outstanding(ts, bs, k) >= Overlap(bs, k, ts[t])
  {
    SumUpdate(ts, t, p, OverlapOf(bs, k));
  }

  lemma OverlapAtNext(bs: Size, next: nat, last: nat, step: Step)
    requires next < last
    ensures Overlap(bs, Num(bs, next), Busy(next, last, step)) == ChunkEnd(bs, next, last) - next > 0
  {
    NumFacts(bs, next);
  }

  /** A block of which a claimed element is not yet counted is live. */
  lemma ClaimedIsLive(s: State, t: Tid)
    requires Inv(s) && t < |s.threads| && s.threads[t].Busy? && s.threads[t].next < s.threads[t].last
    ensures var k := Num(s.bs, s.threads[t].next); k < Published(s) && k < |s.stages| && s.stages[k].Live?
  {
    hide IndexOk, Num, Blocks, Filled, ChunkEnd;
    var Busy(next, last, step) := s.threads[t];
    var k := Num(s.bs, next);
    assert ThreadOk(s, t, s.threads[t]);
    PublishedBlock(s.bs, next, s.tail);
    OverlapAtNext(s.bs, next, last, step);
    OutstandingUpdate(s.threads, t, s.threads[t], s.bs, k);
    assert StageOk(s, k);
  }

  /** A step after which the thread still owes the same elements. */
  lemma QuietKeeps(s: State, t: Tid, step: Step, received: seq<(nat, int)>)
    requires Inv(s) && t < |s.threads| && s.threads[t].Busy?
    requires !s.threads[t].step.Clearing? && !s.threads[t].step.Freeing?
    requires ThreadOk(s, t, s.threads[t].(step := step)) && Faithful(received)
    ensures Inv(s.(received := received).Go(t, s.threads[t].(step := step)))
  {
    hide IndexOk, Faithful, Distinct, Counted, Filled, Outstanding, ThreadOk;
    var p := s.threads[t].(step := step);
    var s' := s.(received := received).Go(t, p);
    forall k | 0 <= k < |s.stages| ensures StageOk(s', k) {
      assert StageOk(s, k);
      OutstandingUpdate(s.threads, t, p, s.bs, k);
    }
    forall u | 0 <= u < |s.threads| ensures ThreadOk(s', u, s'.threads[u]) {
      SameForThread(s, s', u, s'.threads[u]);
      assert ThreadOk(s, u, s.threads[u]);
    }
    SameForProducer(s, s');
  }

  /** What threads and the producer know depends on the index, the stages and the tail alone. */
  lemma SameForThread(s: State, s': State, t: Tid, p: Pc)
    requires s'.headers == s.headers && s'.entries == s.entries && s'.bs == s.bs && s'.stages == s.stages
             && s'.tail == s.tail
    ensures ThreadOk(s', t, p) == ThreadOk(s, t, p)
  {
  }

  lemma SameForProducer(s: State, s': State)
    requires s'.(threads := s.threads, received := s.received) == s
    ensures ProducerOk(s') == ProducerOk(s)
  {
  }

  lemma LoadHeaderKeeps(s: State, t: Tid)
    requires Inv(s) && t < |s.threads| && s.threads[t].Busy? && s.threads[t].step.LoadHeader?
    ensures Inv(Consume(s, t))
  {
    assert ThreadOk(s, t, s.threads[t]);
    QuietKeeps(s, t, LoadTail(Latest(s.headers)), s.received);
  }

  /** While there is an unclaimed or uncounted element, the entry at the tail has a valid key. */
  lemma TailIsKeyed(s: State, k: nat)
    requires Inv(s) && k < Published(s) && k < |s.stages| && s.stages[k].Live?
    ensures EntryAt(Cur(s.headers), s.entries, Cur(s.headers).tail).key.Some?
  {
    hide Ring, Placed, Windowed, Pos, Blocks;
    var j := TailNum(s);
    if j < |s.stages| {
      assert Keyed(Cur(s.headers), s.entries, j);
    }
  }

  lemma LoadTailKeeps(s: State, t: Tid)
    requires Inv(s) && t < |s.threads| && s.threads[t].Busy? && s.threads[t].step.LoadTail?
    ensures Inv(Consume(s, t))
  {
    var Busy(next, last, step) := s.threads[t];
    assert ThreadOk(s, t, s.threads[t]);
    ClaimedIsLive(s, t);
    TailIsKeyed(s, Num(s.bs, next));
    assert HeaderOk(Cur(s.headers), s.headers[step.h], s.entries);
    QuietKeeps(s, t, LoadKey(step.h, Hdr(s.headers, step.h).tail), s.received);
  }

  /** Whichever valid key is at the tail, the slot that is computed from it is that of the block. */
  lemma SlotIsRight(h: Header, es: seq<Entry>, pos: nat, k: nat)
    requires KeysFit(h, es) && pos < |h.index| && EntryAt(h, es, pos).key.Some?
    ensures SlotFor(h.cap, pos, k, EntryAt(h, es, pos).key.value) == Pos(h, k)
  {
    var key := EntryAt(h, es, pos).key.value;
    assert Pos(h, key) == pos;
    ModAdd(key + h.off, k - key, h.cap);
  }

  lemma LoadKeyKeeps(s: State, t: Tid)
    requires Inv(s) && t < |s.threads| && s.threads[t].Busy? && s.threads[t].step.LoadKey?
    ensures Inv(Consume(s, t))
  {
    var Busy(next, last, step) := s.threads[t];
    assert ThreadOk(s, t, s.threads[t]);
    var h := s.headers[step.h];
    assert HeaderOk(Cur(s.headers), h, s.entries);
    SlotIsRight(h, s.entries, step.pos, Num(s.bs, next));
    QuietKeeps(s, t, LoadValue(step.h, Pos(h, Num(s.bs, next))), s.received);
  }

  lemma LoadValueKeeps(s: State, t: Tid)
    requires Inv(s) && t < |s.threads| && s.threads[t].Busy? && s.threads[t].step.LoadValue?
    ensures Inv(Consume(s, t))
  {
    var Busy(next, last, step) := s.threads[t];
    var k := Num(s.bs, next);
    assert ThreadOk(s, t, s.threads[t]);
    ClaimedIsLive(s, t);
    NumOrder(s.bs, next, last - 1);
    assert Known(s.headers, step.h, k);
    assert PlacedIn(Cur(s.headers), s.headers[step.h], s.entries, k, s.stages[k].b);
    OverlapAtNext(s.bs, next, last, step);
    QuietKeeps(s, t, Reading(step.h, step.idx, s.stages[k].b, next), s.received);
  }

  /** The element in the slot is the one that was enqueued at the index. */
  lemma SlotHolds(s: State, t: Tid)
    requires Inv(s) && t < |s.threads| && s.threads[t].Busy? && s.threads[t].step.Reading?
    ensures var step := s.threads[t].step;
            Nth(Nth(s.blocks, step.b, NoBlock).slots, step.c % s.bs, -1) == step.c
  {
    hide IndexOk, Num, Base, Counted, Attended, Pos;
    var Busy(next, last, step) := s.threads[t];
    var k := Num(s.bs, next);
    assert ThreadOk(s, t, s.threads[t]);
    NumFacts(s.bs, next);
    NumUnique(s.bs, step.c, k);
    NumFacts(s.bs, step.c);
    assert StageOk(s, k);
  }

  lemma ReadingKeeps(s: State, t: Tid)
    requires Inv(s) && t < |s.threads| && s.threads[t].Busy? && s.threads[t].step.Reading?
    ensures Inv(Consume(s, t))
  {
    var Busy(next, last, step) := s.threads[t];
    var received := s.received + [(step.c, step.c)];
    SlotHolds(s, t);
    assert ThreadOk(s, t, s.threads[t]);
    assert Faithful(received);
    hide Inv, ChunkEnd, IndexKnown, Faithful;
    var more := step.c + 1 < ChunkEnd(s.bs, next, last);
    var step' := if more then Reading(step.h, step.idx, step.b, step.c + 1) else Counting(step.h, step.idx, step.b);
    ReadingGoesOn(s.headers, s.entries, s.bs, next, last, step);
    QuietKeeps(s, t, step', received);
  }

  lemma ReadingGoesOn(hs: seq<Header>, es: seq<Entry>, bs: Size, next: nat, last: nat, step: Step)
    requires step.Reading? && IndexKnown(hs, es, bs, next, last, step)
    ensures step.c + 1 < ChunkEnd(bs, next, last)
            ==> IndexKnown(hs, es, bs, next, last, Reading(step.h, step.idx, step.b, step.c + 1))
    ensures IndexKnown(hs, es, bs, next, last, Counting(step.h, step.idx, step.b))
  {
  }

  // ---------------------------------------------------------------------------
  // Counting
  // ---------------------------------------------------------------------------

  /** Counting a chunk takes it from what is outstanding in its block, and nothing from other blocks. */
  lemma ChunkLeaves(bs: Size, next: nat, last: nat, step: Step, step': Step, l: nat)
    requires next < last
    ensures var k, end := Num(bs, next), ChunkEnd(bs, next, last);
            Overlap(bs, l, Busy(next, last, step)) == Overlap(bs, l, Busy(end, last, step')) + if l == k
                then end - next else 0
  {
    hide Num, Base;
    var k := Num(bs, next);
    NumFacts(bs, next);
    BaseOrder(bs, k, l);
    BaseOrder(bs, l, k);
  }

  /** Where a claim stands once a chunk of it is counted. */
  lemma NextChunk(bs: Size, next: nat, last: nat)
    requires next < last
    ensures var k, end := Num(bs, next), ChunkEnd(bs, next, last);
            next < end <= last && k <= Num(bs, last - 1) && (end < last ==> Num(bs, end) == k + 1)
  {
    hide Num, Base;
    var k := Num(bs, next);
    NumFacts(bs, next);
    NumOrder(bs, next, last - 1);
    BaseOrder(bs, k, k + 1);
    NumUnique(bs, Base(bs, k + 1), k + 1);
  }

  /** The next position of the ring is that of the next block. */
  lemma NextPosition(h: Header, k: nat)
    ensures (Pos(h, k) + 1) % h.cap == Pos(h, k + 1)
  {
    ModAdd(k + h.off, 1, h.cap);
  }

  /** What the thread does next fits the index. */
  lemma AdvanceOk(s: State, t: Tid, next: nat, last: nat, h: nat, k: nat)
    requires next <= last <= s.tail && Finds(s.headers, s.bs, h, last)
             && LeftBlock(s.headers[h], s.bs, next, last, Pos(s.headers[h], k), k)
    ensures ThreadOk(s, t, Advance(next, last, Hdr(s.headers, h).cap, h, Pos(s.headers[h], k)))
  {
    hide Pos, Num;
    NextPosition(s.headers[h], k);
  }

  lemma AdvanceOverlap(bs: Size, l: nat, next: nat, last: nat, cap: Size, h: nat, idx: nat, step: Step)
    ensures Overlap(bs, l, Advance(next, last, cap, h, idx)) == Overlap(bs, l, Busy(next, last, step))
  {
  }

  /** The state after counting the chunk, apart from what the thread does next. */
  function AfterCount(s: State, t: Tid, p: Pc): State
    requires t < |s.threads| && s.threads[t].Busy? && s.threads[t].step.Counting?
  {
    var Busy(next, last, step) := s.threads[t];
    var block := Nth(s.blocks, step.b, NoBlock);
    var count := block.count + Max(ChunkEnd(s.bs, next, last) - next, 0);
    s.(blocks := Upd(s.blocks, step.b, block.(count := count)),
       stages := if count == s.bs then Upd(s.stages, Num(s.bs, next), Emptied(step.b, t)) else s.stages).Go(t, p)
  }

  /** What the counting thread does next: its claim now begins behind the chunk, and it clears what it emptied. */
  ghost predicate GoesOn(s: State, t: Tid, p: Pc)
    requires t < |s.threads| && s.threads[t].Busy? && s.threads[t].step.Counting?
  {
    var Busy(next, last, step) := s.threads[t];
    var k, end := Num(s.bs, next), ChunkEnd(s.bs, next, last);
    && (forall l: nat :: Overlap(s.bs, l, p) == Overlap(s.bs, l, Busy(end, last, step)))
    && (AfterCount(s, t, p).stages != s.stages ==> AtClearing(p, step.b, k))
  }

  lemma CountedStage(s: State, t: Tid, p: Pc, l: nat)
    requires Inv(s) && t < |s.threads| && s.threads[t].Busy? && s.threads[t].step.Counting?
    requires GoesOn(s, t, p) && l < |s.stages|
    ensures StageOk(AfterCount(s, t, p), l)
  {
    hide IndexOk, Filled, ChunkEnd, Num, Unclaimed, Overlap, ProducerOk, Blocks, Outstanding;
    var Busy(next, last, step) := s.threads[t];
    var k := Num(s.bs, next);
    assert ThreadOk(s, t, s.threads[t]);
    assert StageOk(s, k) && StageOk(s, l);
    ChunkLeaves(s.bs, next, last, step, step, l);
    OutstandingUpdate(s.threads, t, p, s.bs, l);
    NextChunk(s.bs, next, last);
    assert Overlap(s.bs, l, p) == Overlap(s.bs, l, Busy(ChunkEnd(s.bs, next, last), last, step));
  }

  lemma CountedThread(s: State, t: Tid, p: Pc, u: Tid)
    requires Inv(s) && t < |s.threads| && s.threads[t].Busy? && s.threads[t].step.Counting?
    requires GoesOn(s, t, p) && u < |s.threads| && u != t
    ensures ThreadOk(AfterCount(s, t, p), u, s.threads[u])
  {
    var s', k := AfterCount(s, t, p), Num(s.bs, s.threads[t].next);
    ClaimedIsLive(s, t);
    CountedStage(s, t, p, k);
    assert ThreadOk(s, u, s.threads[u]);
    if s'.stages != s.stages && s.threads[u].Busy? && s.threads[u].next < s.threads[u].last
        && Num(s.bs, s.threads[u].next) == k {
      OverlapAtNext(s.bs, s.threads[u].next, s.threads[u].last, s.threads[u].step);
      OutstandingUpdate(s'.threads, u, s.threads[u], s.bs, k);
      assert false;
    }
  }

  lemma CountedIndex(s: State, t: Tid, p: Pc)
    requires Inv(s) && t < |s.threads| && s.threads[t].Busy? && s.threads[t].step.Counting?
    ensures var s' := AfterCount(s, t, p);
            IndexOk(s'.headers, s'.entries, s'.stages, Published(s'), s'.top) && ProducerOk(s')
  {
    hide IndexOk, Num, Blocks, ChunkEnd, StageOk;
    var Busy(next, last, step) := s.threads[t];
    var k := Num(s.bs, next);
    var s' := AfterCount(s, t, p);
    assert ThreadOk(s, t, s.threads[t]);
    ClaimedIsLive(s, t);
    if s'.stages != s.stages {
      StageMoves(s.headers, s.entries, s.stages, Published(s), s.top, k, Emptied(step.b, t));
    }
    assert StageOk(s, k);
    MineIsNotRequisitioned(s, k);
  }

  lemma MineIsNotRequisitioned(s: State, k: nat)
    requires k < |s.stages| && StageOk(s, k) && s.stages[k].Live?
    ensures s.stages[k].b < |s.blocks| && s.blocks[s.stages[k].b].place == Queued(k)
  {
  }

  lemma CountKeeps(s: State, t: Tid, p: Pc)
    requires Inv(s) && t < |s.threads| && s.threads[t].Busy? && s.threads[t].step.Counting?
    requires GoesOn(s, t, p) && ThreadOk(AfterCount(s, t, p), t, p)
    ensures Inv(AfterCount(s, t, p))
  {
    var s' := AfterCount(s, t, p);
    CountedIndex(s, t, p);
    hide GoesOn, ThreadOk, StageOk, ProducerOk, IndexOk, Faithful, Distinct;
    forall k | 0 <= k < |s'.stages| ensures StageOk(s', k) { CountedStage(s, t, p, k); }
    forall u | 0 <= u < |s'.threads| ensures ThreadOk(s', u, s'.threads[u]) {
      if u != t { CountedThread(s, t, p, u); }
    }
  }

  lemma CountingGoesOn(s: State, t: Tid)
    requires t < |s.threads| && s.threads[t].Busy? && s.threads[t].step.Counting?
    requires Num(s.bs, s.threads[t].next) < |s.stages| && s.stages[Num(s.bs, s.threads[t].next)]
             == Live(s.threads[t].step.b)
    ensures var p := Consume(s, t).threads[t]; Consume(s, t) == AfterCount(s, t, p) && GoesOn(s, t, p)
  {
    hide Num, ChunkEnd, Overlap;
    var Busy(next, last, step) := s.threads[t];
    var k, end := Num(s.bs, next), ChunkEnd(s.bs, next, last);
    var p := Consume(s, t).threads[t];
    forall l: nat ensures Overlap(s.bs, l, p) == Overlap(s.bs, l, Busy(end, last, step)) {
      AdvanceOverlap(s.bs, l, end, last, Hdr(s.headers, step.h).cap, step.h, step.idx, step);
      OverlapIgnoresStep(s.bs, l, end, last, step, Clearing(step.h, step.idx, step.b, k));
    }
  }

  lemma CountingKeeps(s: State, t: Tid)
    requires Inv(s) && t < |s.threads| && s.threads[t].Busy? && s.threads[t].step.Counting?
    ensures Inv(Consume(s, t))
  {
    var Busy(next, last, step) := s.threads[t];
    var k, end := Num(s.bs, next), ChunkEnd(s.bs, next, last);
    assert ThreadOk(s, t, s.threads[t]);
    ClaimedIsLive(s, t);
    CountingGoesOn(s, t);
    NextChunk(s.bs, next, last);
    hide Inv, Num, ChunkEnd, Overlap, Pos, GoesOn;
    var p := Consume(s, t).threads[t];
    AdvanceOk(AfterCount(s, t, p), t, end, last, step.h, k);
    CountKeeps(s, t, p);
  }

  lemma OverlapIgnoresStep(bs: Size, l: nat, next: nat, last: nat, step: Step, step': Step)
    ensures Overlap(bs, l, Busy(next, last, step)) == Overlap(bs, l, Busy(next, last, step'))
  {
  }

  // ---------------------------------------------------------------------------
  // Clearing the entry and returning the block
  // ---------------------------------------------------------------------------

  lemma ClearedIndex(s: State, t: Tid)
    requires Inv(s) && t < |s.threads| && s.threads[t].Busy? && s.threads[t].step.Clearing?
    ensures var s' := Consume(s, t); IndexOk(s'.headers, s'.entries, s'.stages, Published(s'), s'.top)
  {
    hide Pos, Num, Blocks;
    var Busy(next, last, step) := s.threads[t];
    assert ThreadOk(s, t, s.threads[t]);
    BlockCleared(s.headers, s.entries, s.stages, Published(s), s.top, step.h, step.k, Cleared(step.b, t));
  }

  lemma ClearedStage(s: State, t: Tid, l: nat)
    requires Inv(s) && t < |s.threads| && s.threads[t].Busy? && s.threads[t].step.Clearing? && l < |s.stages|
    ensures StageOk(Consume(s, t), l)
  {
    hide IndexOk, ProducerOk, Blocks, Filled, Outstanding, Unclaimed, Overlap;
    var Busy(next, last, step) := s.threads[t];
    var s' := Consume(s, t);
    assert ThreadOk(s, t, s.threads[t]);
    assert StageOk(s, l) && StageOk(s, step.k);
    OverlapIgnoresStep(s.bs, l, next, last, step, s'.threads[t].step);
    OutstandingUpdate(s.threads, t, s'.threads[t], s.bs, l);
  }

  lemma ClearingKeeps(s: State, t: Tid)
    requires Inv(s) && t < |s.threads| && s.threads[t].Busy? && s.threads[t].step.Clearing?
    ensures Inv(Consume(s, t))
  {
    var s' := Consume(s, t);
    ClearedIndex(s, t);
    ClearedProducer(s, t);
    hide IndexOk, ProducerOk, StageOk, ThreadOk, PutEntry, EntryAt, Faithful, Distinct, Blocks;
    forall k | 0 <= k < |s'.stages| ensures StageOk(s', k) { ClearedStage(s, t, k); }
    forall u | 0 <= u < |s'.threads| ensures ThreadOk(s', u, s'.threads[u]) {
      assert ThreadOk(s, u, s.threads[u]);
      ClearedThread(s, t, u);
    }
  }

  /** Clearing an entry leaves its key. */
  lemma KeysStay(h: Header, h': Header, es: seq<Entry>, q: nat, p: nat)
    ensures EntryAt(h', PutEntry(h, es, q, EntryAt(h, es, q).(value := None)), p).key == EntryAt(h', es, p).key
  {
  }

  lemma ClearedThread(s: State, t: Tid, u: Tid)
    requires t < |s.threads| && u < |s.threads| && s.threads[t].Busy? && s.threads[t].step.Clearing?
    requires ThreadOk(s, t, s.threads[t]) && ThreadOk(s, u, s.threads[u])
    ensures ThreadOk(Consume(s, t), u, Consume(s, t).threads[u])
  {
    hide Pos, Num;
    var Busy(_, _, step) := s.threads[t];
    var h := s.headers[step.h];
    forall h', p ensures EntryAt(h', Consume(s, t).entries, p).key == EntryAt(h', s.entries, p).key {
      KeysStay(h, h', s.entries, step.idx, p);
    }
  }

  lemma ClearedProducer(s: State, t: Tid)
    requires Inv(s) && t < |s.threads| && s.threads[t].Busy? && s.threads[t].step.Clearing?
    ensures ProducerOk(Consume(s, t))
  {
    hide Pos, IndexOk, StageOk, Blocks;
    var Busy(_, _, step) := s.threads[t];
    assert ThreadOk(s, t, s.threads[t]);
    var h, cur := s.headers[step.h], Cur(s.headers);
    KeysStay(h, cur, s.entries, step.idx, Pos(cur, |s.stages|));
  }

  lemma FreedIndex(s: State, t: Tid)
    requires Inv(s) && t < |s.threads| && s.threads[t].Busy? && s.threads[t].step.Freeing?
    ensures var s' := Consume(s, t); IndexOk(s'.headers, s'.entries, s'.stages, Published(s'), s'.top) && ProducerOk(s')
  {
    hide IndexOk, Pos, Num, Blocks;
    var Busy(next, last, step) := s.threads[t];
    assert ThreadOk(s, t, s.threads[t]);
    assert StageOk(s, step.k);
    hide StageOk;
    StageMoves(s.headers, s.entries, s.stages, Published(s), s.top, step.k, Returned);
  }

  lemma FreedStage(s: State, t: Tid, l: nat)
    requires Inv(s) && t < |s.threads| && s.threads[t].Busy? && s.threads[t].step.Freeing? && l < |s.stages|
    ensures StageOk(Consume(s, t), l)
  {
    hide IndexOk, ProducerOk, Blocks, Filled, Outstanding, Unclaimed, Overlap;
    var Busy(next, last, step) := s.threads[t];
    var s' := Consume(s, t);
    assert ThreadOk(s, t, s.threads[t]);
    assert StageOk(s, l) && StageOk(s, step.k);
    AdvanceOverlap(s.bs, l, next, last, Hdr(s.headers, step.h).cap, step.h, step.idx, step);
    OutstandingUpdate(s.threads, t, s'.threads[t], s.bs, l);
  }

  lemma FreedThread(s: State, t: Tid, u: Tid)
    requires t < |s.threads| && u < |s.threads| && s.threads[t].Busy? && s.threads[t].step.Freeing?
    requires ThreadOk(s, t, s.threads[t]) && ThreadOk(s, u, s.threads[u])
    ensures ThreadOk(Consume(s, t), u, Consume(s, t).threads[u])
  {
    hide Pos, Num;
    var Busy(next, last, step) := s.threads[t];
    if u == t { AdvanceOk(Consume(s, t), t, next, last, step.h, step.k); }
  }

  lemma FreeingKeeps(s: State, t: Tid)
    requires Inv(s) && t < |s.threads| && s.threads[t].Busy? && s.threads[t].step.Freeing?
    ensures Inv(Consume(s, t))
  {
    var s', k := Consume(s, t), s.threads[t].step.k;
    FreedIndex(s, t);
    assert ThreadOk(s, t, s.threads[t]);
    assert StageOk(s, k) && k !in s.returned;
    assert k < Published(s);
    hide IndexOk, ProducerOk, StageOk, ThreadOk, Faithful, Blocks;
    forall l | 0 <= l < |s'.stages| ensures StageOk(s', l) { FreedStage(s, t, l); }
    forall u | 0 <= u < |s'.threads| ensures ThreadOk(s', u, s'.threads[u]) {
      assert ThreadOk(s, u, s.threads[u]);
      FreedThread(s, t, u);
    }
  }
}
