module ExplicitIndexRuns {
  /** What holds in every run of the explicit producer and its consumers. */

  import opened Wrappers
  import opened ThreadCounting
  import opened ModArithmetic
  import opened IndexBlocks
  import opened ExplicitIndex
  import opened ExplicitIndexInvariant
  import opened ExplicitIndexSteps
  import opened ExplicitIndexProducer

  lemma InitHolds(s: State)
    requires Init(s)
    ensures Inv(s)
  {
    BlocksFacts(s.bs, 0);
    assert HeaderOk(s.headers[0]);
    ModUnique(0, s.headers[0].size, 0, 0);
  }

  lemma {:induction false} EveryRunKeepsInv(run: seq<State>, i: nat)
    requires IsRun(run) && i < |run|
    ensures Inv(run[i])
  {
    if i == 0 {
      InitHolds(run[0]);
    } else {
      EveryRunKeepsInv(run, i - 1);
      assert Succeeds(run[i - 1], run[i - 1 + 1]);
      var a :| Enabled(run[i - 1], a) && run[i] == Apply(run[i - 1], a);
      ApplyKeeps(run[i - 1], a);
    }
  }

  /** The block that `n` steps along the circular list lead to from block `b`. */
  function Along(blocks: seq<Block>, b: nat, n: nat): nat
    decreases n
  {
    if n == 0 then b else Along(blocks, Nth(blocks, b, NoBlock).next, n - 1)
  }

  lemma {:induction false} ListFollowsWindow(s: State, d: nat, n: nat)
    requires ListOk(s) && d + n < |s.window|
    ensures Along(s.blocks, s.window[d], n) == s.window[d + n]
    decreases n
  {
    if n > 0 {
      assert s.blocks[s.window[d]].next == s.window[d + 1];
      ListFollowsWindow(s, d + 1, n - 1);
    }
  }

  /**
   Between enqueues, the circular list is the last `slotsUsed` entries of the index, in order:
   `d + 1` steps from the newest block lead to the block of the `d`-th of those entries, whose
   base is the next in turn, and once around leads back.
   */
  lemma ListIsIndexWindow(run: seq<State>, i: nat, d: nat)
    requires IsRun(run) && i < |run| && run[i].producer.Resting? && d < run[i].slotsUsed
    ensures var s, cur := run[i], Cur(run[i].headers);
            && s.tailBlock.Some? && s.slotsUsed <= cur.size
            && var e := EntryAt(cur, (s.prFront - s.slotsUsed + d) % cur.size);
            && e.Some? && e.value.base == Blocks(s.bs, s.tail) - s.slotsUsed + d
            && e.value.block == Some(Along(s.blocks, s.tailBlock.value, d + 1))
    ensures var s := run[i]; s.tailBlock.Some? && Along(s.blocks, s.tailBlock.value, s.slotsUsed) == s.tailBlock.value
  {
    hide IsRun, ThreadsOk, BlocksOk, Along, Pos;
    EveryRunKeepsInv(run, i);
    var s, cur, n := run[i], Cur(run[i].headers), |run[i].window|;
    RingNonempty(s.headers, s);
    WindowPosition(s, d);
    assert Known(s.headers, |s.headers| - 1, s.first + d);
    assert PlacedIn(s.headers[|s.headers| - 1], s.first + d, s.window[d]);
    AroundOnce(s, d);
    AroundOnce(s, n - 1);
  }

  lemma WindowPosition(s: State, d: nat)
    requires IndexOk(s) && s.producer.Resting? && d < |s.window|
    ensures (s.prFront - s.slotsUsed + d) % Cur(s.headers).size == Pos(Cur(s.headers), s.first + d)
  {
    var cur := Cur(s.headers);
    ModAdd(s.Numbers() + cur.off, d - s.slotsUsed, cur.size);
  }

  lemma AroundOnce(s: State, d: nat)
    requires ListOk(s) && d < |s.window|
    ensures Along(s.blocks, s.tailBlock.value, d + 1) == s.window[d]
  {
    ListFollowsWindow(s, 0, d);
    assert s.blocks[s.window[|s.window| - 1]].next == s.window[0];
  }

  /** Only a block whose elements are all gone is taken again. */
  lemma ReuseIsOfEmptiedBlock(run: seq<State>, i: nat, j: nat)
    requires IsRun(run) && i < |run| && run[i].producer.Checking? && run[i].window != []
    requires Produce(run[i]).producer.StoreBase? && j < Base(run[i].bs, run[i].first + 1)
    ensures Done(run[i], j) && Produce(run[i]).tailBlock == Some(run[i].window[0])
  {
    hide IsRun, IndexOk, ThreadsOk, BlocksOk, Done;
    EveryRunKeepsInv(run, i);
    var s := run[i];
    AheadIsOldest(s);
    assert FlagsSet(BlockAt(s, s.window[0]).flags, s.bs) by {
      assert s.producer.i > 0 ==> FlagsSet(BlockAt(s, s.window[0]).flags, s.producer.i);
    }
    OldestIsDone(s, j);
  }

  /** Every lookup comes upon written entries. */
  lemma LookupsNeverFail(run: seq<State>, i: nat, t: Tid)
    requires IsRun(run) && i < |run| && t < |run[i].threads|
    ensures !run[i].threads[t].Crashed?
  {
    hide IsRun, IndexOk, ListOk, BlocksOk;
    EveryRunKeepsInv(run, i);
    ThreadIsOk(run[i], t);
  }

  /** The block a consumer looked up is the one in which the elements it claimed were constructed. */
  lemma LookupFindsTheBlock(run: seq<State>, i: nat, t: Tid)
    requires IsRun(run) && i < |run| && t < |run[i].threads| && run[i].threads[t].Busy?
    requires run[i].threads[t].step.Reading? || run[i].threads[t].step.Flagging?
    ensures var s, b := run[i], run[i].threads[t].step.b;
            var k := Num(s.bs, s.threads[t].next);
            && b < |s.blocks| && s.blocks[b].place == Listed(k)
            && forall e | 0 <= e < s.bs && Base(s.bs, k) + e < s.tail ::
                 Nth(s.blocks[b].slots, e, -1) == Base(s.bs, k) + e
  {
    hide IsRun, IndexOk, Done, Base, Num;
    EveryRunKeepsInv(run, i);
    ThreadIsOk(run[i], t);
    var d := Num(run[i].bs, run[i].threads[t].next) - run[i].first;
    assert BlockOk(run[i], run[i].first + d, run[i].window[d]);
  }

  /** Whatever was received for an index is the element that was enqueued there. */
  lemma EveryElementIsRight(run: seq<State>, i: nat)
    requires IsRun(run) && i < |run|
    ensures forall r <- run[i].received :: r.1 == r.0
  {
    hide IsRun, IndexOk, ListOk, BlocksOk, ThreadsOk;
    EveryRunKeepsInv(run, i);
  }

  /** A replaced index has the blocks of the window, and no others, in the order of their numbers. */
  lemma GrowingKeepsTheWindow(run: seq<State>, i: nat, q: nat)
    requires IsRun(run) && i < |run| && run[i].producer.NeedRoom? && run[i].slotsUsed == Cur(run[i].headers).size
    requires q < 2 * run[i].slotsUsed
    ensures var s, g := run[i], Cur(Produce(run[i]).headers);
            && g.size == 2 * s.slotsUsed
            && EntryAt(g, q) == if q < |s.window| then Some(Entry(s.first + q, Some(s.window[q]))) else None
  {
    hide IsRun, ListOk, ThreadsOk, BlocksOk, Pos, GrownEntry, Ring, Placed;
    EveryRunKeepsInv(run, i);
    var s := run[i];
    RingNonempty(s.headers, s);
    if q < |s.window| { GrownWindow(s, q); } else { NothingBehind(Cur(s.headers), s.prFront, s.slotsUsed, q); }
  }
}
