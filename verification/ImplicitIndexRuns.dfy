module ImplicitIndexRuns {
  /** What holds in every run of the implicit producer and its consumers. */

  import opened Wrappers
  import opened ThreadCounting
  import opened ModArithmetic
  import opened IndexBlocks
  import opened ImplicitIndex
  import opened ImplicitIndexInvariant
  import opened ImplicitIndexConsumers
  import opened ImplicitIndexProducer

  lemma ConsumeKeeps(s: State, t: Tid)
    requires Inv(s) && t < |s.threads| && s.threads[t].Busy?
    ensures Inv(Consume(s, t))
  {
    hide Inv, Consume;
    match s.threads[t].step
    case LoadHeader => LoadHeaderKeeps(s, t);
    case LoadTail(_) => LoadTailKeeps(s, t);
    case LoadKey(_, _) => LoadKeyKeeps(s, t);
    case LoadValue(_, _) => LoadValueKeeps(s, t);
    case Reading(_, _, _, _) => ReadingKeeps(s, t);
    case Counting(_, _, _) => CountingKeeps(s, t);
    case Clearing(_, _, _, _) => ClearingKeeps(s, t);
    case Freeing(_, _, _, _) => FreeingKeeps(s, t);
  }

  lemma ApplyKeeps(s: State, a: Action)
    requires Inv(s) && Enabled(s, a)
    ensures Inv(Apply(s, a))
  {
    hide Inv, Produce, Consume, NextBlock;
    match a
    case Enqueue(n) => EnqueueKeeps(s, n);
    case Full => FullKeeps(s);
    case Obtain(b) => ObtainKeeps(s, b);
    case Produces => ProduceKeeps(s);
    case Claim(t, n) => ClaimKeeps(s, t, n);
    case Consumes(t) => ConsumeKeeps(s, t);
    case Other(b, block) => OtherKeeps(s, b, block);
  }

  lemma InitHolds(s: State)
    requires Init(s)
    ensures Inv(s)
  {
    var h := s.headers[0];
    BlocksFacts(s.bs, 0);
    assert Cur(s.headers) == h;
    ModUnique(-1, h.cap, -1, h.cap - 1);
    Divides(h.cap, h.cap, 1);
    forall q | 0 <= q < h.cap ensures EntryAt(h, s.entries, q) == NoEntry && q % h.cap == q {
      ModUnique(q, h.cap, 0, q);
    }
    assert HeaderOk(h, h, s.entries);
    assert Ring(s.headers, s.entries);
  }

  lemma {:induction false} EveryRunKeepsInv(run: seq<State>, i: nat)
    requires IsRun(run) && i < |run|
    ensures Inv(run[i])
  {
    if i == 0 {
      InitHolds(run[0]);
    } else {
      EveryRunKeepsInv(run, i - 1);
      assert Succeeds(run[i - 1], run[i - 1 + 1]);
      var a :| Enabled(run[i - 1], a) && run[i] == Apply(run[i - 1], a);
      ApplyKeeps(run[i - 1], a);
    }
  }

  /** Every lookup comes upon a valid key at the tail and a block in its slot. */
  lemma LookupsNeverFail(run: seq<State>, i: nat, t: Tid)
    requires IsRun(run) && i < |run| && t < |run[i].threads|
    ensures !run[i].threads[t].Crashed?
  {
    hide IsRun;
    EveryRunKeepsInv(run, i);
    assert ThreadOk(run[i], t, run[i].threads[t]);
  }

  /**
   A consumer that looked up a block has the one the element at its index was constructed in, and no one frees it
   meanwhile.
   */
  lemma LookupFindsTheBlock(run: seq<State>, i: nat, t: Tid)
    requires IsRun(run) && i < |run| && t < |run[i].threads| && run[i].threads[t].Busy?
    requires run[i].threads[t].step.Reading? || run[i].threads[t].step.Counting?
    ensures var s, b := run[i], run[i].threads[t].step.b;
            var k := Num(s.bs, s.threads[t].next);
            && k < |s.stages| && s.stages[k] == Live(b) && b < |s.blocks| && s.blocks[b].place == Queued(k)
            && Filled(s.bs, k, s.blocks[b].slots, s.tail)
  {
    hide IsRun, IndexOk;
    EveryRunKeepsInv(run, i);
    var s := run[i];
    assert ThreadOk(s, t, s.threads[t]);
    assert StageOk(s, Num(s.bs, s.threads[t].next));
  }

  /** Whatever was received for an index is the element that was enqueued there. */
  lemma EveryElementIsRight(run: seq<State>, i: nat)
    requires IsRun(run) && i < |run|
    ensures forall r <- run[i].received :: r.1 == r.0
  {
    hide IsRun;
    EveryRunKeepsInv(run, i);
  }

  /** In every header that may be asked for it, the entry of a live block stays as it was written. */
  lemma LiveEntriesAreIntact(run: seq<State>, i: nat, h: nat, k: nat)
    requires IsRun(run) && i < |run| && k < |run[i].stages| && run[i].stages[k].Live? && Known(run[i].headers, h, k)
    ensures var s := run[i];
            EntryAt(s.headers[h], s.entries, Pos(s.headers[h], k)) == Entry(Some(k), Some(s.stages[k].b))
  {
    hide IsRun, StageOk, ThreadOk, ProducerOk;
    EveryRunKeepsInv(run, i);
    var s := run[i];
    assert PlacedIn(Cur(s.headers), s.headers[h], s.entries, k, s.stages[k].b);
  }

  /** The keys of the current ring are spaced as their positions are, and all of the last round. */
  lemma KeysAreSpaced(run: seq<State>, i: nat, p: nat, q: nat)
    requires IsRun(run) && i < |run|
    requires var cur := Cur(run[i].headers); p < cur.cap && q < cur.cap
    requires EntryAt(Cur(run[i].headers), run[i].entries, p).key.Some?
    requires EntryAt(Cur(run[i].headers), run[i].entries, q).key.Some?
    ensures var s, cur := run[i], Cur(run[i].headers);
            var j, k := EntryAt(cur, s.entries, p).key.value, EntryAt(cur, s.entries, q).key.value;
            (p + (k - j)) % cur.cap == q && k < j + cur.cap && j < k + cur.cap && (j == k ==> p == q)
  {
    hide IsRun, StageOk, ThreadOk, ProducerOk, Pos;
    EveryRunKeepsInv(run, i);
    var s, cur := run[i], Cur(run[i].headers);
    CurIsLast(s.headers, s.entries);
    assert Recent(EntryAt(cur, s.entries, p), cur.cap, s.top) && Recent(EntryAt(cur, s.entries, q), cur.cap, s.top);
    SlotIsRight(cur, s.entries, p, EntryAt(cur, s.entries, q).key.value);
  }

  /** Block numbers in use have blocks of their own, which are in no pool and with no other producer. */
  lemma BlocksAreNotShared(run: seq<State>, i: nat, k: nat, l: nat)
    requires IsRun(run) && i < |run| && k < l < |run[i].stages| && InIndex(run[i].stages[k])
             && InIndex(run[i].stages[l])
    ensures var s := run[i];
            && s.stages[k].b != s.stages[l].b
            && s.stages[k].b < |s.blocks| && !Foreign(s.blocks[s.stages[k].b].place)
  {
    hide IsRun, IndexOk, ThreadOk, ProducerOk;
    EveryRunKeepsInv(run, i);
    assert StageOk(run[i], k) && StageOk(run[i], l);
  }

  /** No element of block `k` is unclaimed or claimed and not yet counted. */
  ghost predicate AllCounted(s: State, k: nat) {
    Unclaimed(s.bs, k, s.head) == 0 && Outstanding(s.threads, s.bs, k) == 0
  }

  /** A thread is about to clear the entry of block `k` or to return the block. */
  predicate Finishes(p: Pc, k: nat) { p.Busy? && (p.step.Clearing? || p.step.Freeing?) && p.step.k == k }

  /**
   Every filled block is returned exactly once: never twice, never before its last
   element is counted, and afterwards unless one thread is on the way to do it.
   */
  lemma ReturnedExactlyOnce(run: seq<State>, i: nat, k: nat)
    requires IsRun(run) && i < |run| && k < Published(run[i])
    ensures Distinct(run[i].returned)
    ensures k in run[i].returned ==> AllCounted(run[i], k)
    ensures AllCounted(run[i], k) && k !in run[i].returned
            ==> exists t | 0 <= t < |run[i].threads| :: Finishes(run[i].threads[t], k)
    ensures forall t, u | 0 <= t < u < |run[i].threads| ::
            !(Finishes(run[i].threads[t], k) && Finishes(run[i].threads[u], k))
    ensures k in run[i].returned ==> forall t | 0 <= t < |run[i].threads| :: !Finishes(run[i].threads[t], k)
  {
    hide IsRun, IndexOk, Outstanding, Unclaimed, Num, Blocks, IndexKnown, Filled;
    EveryRunKeepsInv(run, i);
    var s := run[i];
    assert StageOk(s, k);
    forall t | 0 <= t < |s.threads| && Finishes(s.threads[t], k)
      ensures (s.stages[k].Emptied? || s.stages[k].Cleared?) && s.stages[k].t == t
    {
      assert ThreadOk(s, t, s.threads[t]);
    }
    if AllCounted(s, k) && k !in s.returned { assert Finishes(s.threads[s.stages[k].t], k); }
  }
}
