module ImplicitIndexDelivery {
  /**
   What the implicit producer and its consumers get done: every claimed element is received just once, and an
   enqueue ends with all of its elements published unless there is no room or no memory for them.
   */

  import opened Wrappers
  import opened ThreadCounting
  import opened ModArithmetic
  import opened IndexBlocks
  import opened ImplicitIndex
  import opened ImplicitIndexInvariant
  import opened ImplicitIndexConsumers
  import opened ImplicitIndexRuns

  // ---------------------------------------------------------------------------
  // Delivery
  // ---------------------------------------------------------------------------

  /** Index `j` is claimed by the thread, and it has not read the element yet. */
  function Unread(bs: Size, j: nat, p: Pc): nat {
    if !p.Busy? then 0
    else
      var from := match p.step
                  case Reading(_, _, _, c) => c
                  case Counting(_, _, _) => ChunkEnd(bs, p.next, p.last)
                  case _ => p.next;
      if from <= j < p.last then 1 else 0
  }

  function UnreadOf(bs: Size, j: nat): (f: Pc -> nat)
    ensures forall p :: f(p) == Unread(bs, j, p)
  {
    p => Unread(bs, j, p)
  }

  ghost function Unreads(s: State, j: nat): nat { Sum(s.threads, UnreadOf(s.bs, j)) }

  /** Every claimed index has been received once, or one thread is still to read it. */
  ghost predicate Conserved(s: State) {
    forall j: nat :: Times(s.received, j) + Unreads(s, j) == if j < s.head then 1 else 0
  }

  /** Thread `t` has moved on, and has received what it does not have to read any more. */
  lemma MovesOn(s: State, s': State, t: Tid)
    requires Conserved(s) && t < |s.threads| == |s'.threads| && s'.threads == s.threads[t := s'.threads[t]]
    requires s'.bs == s.bs && s'.head >= s.head
    requires forall j: nat ::
               Times(s'.received, j) + Unread(s.bs, j, s'.threads[t])
               == Times(s.received, j) + Unread(s.bs, j, s.threads[t]) + if s.head <= j < s'.head then 1 else 0
    ensures Conserved(s')
  {
    hide Unread, Times;
    forall j: nat ensures Times(s'.received, j) + Unreads(s', j) == if j < s'.head then 1 else 0 {
      SumUpdate(s.threads, t, s'.threads[t], UnreadOf(s.bs, j));
      assert Times(s.received, j) + Unreads(s, j) == if j < s.head then 1 else 0;
    }
  }

  lemma ReadingConserves(s: State, t: Tid)
    requires Inv(s) && Conserved(s) && t < |s.threads| && s.threads[t].Busy? && s.threads[t].step.Reading?
    ensures Conserved(Consume(s, t))
  {
    hide IndexOk, StageOk, ProducerOk, ChunkEnd, Conserved, Finds, Pos, Num, StageKnown, Times;
    var s', c := Consume(s, t), s.threads[t].step.c;
    assert ThreadOk(s, t, s.threads[t]);
    ChunkInClaim(s.bs, s.threads[t].next, s.threads[t].last);
    forall j: nat
      ensures Times(s'.received, j) + Unread(s.bs, j, s'.threads[t])
           == Times(s.received, j) + Unread(s.bs, j, s.threads[t])
    {
      TimesAppended(s.received, (c, Nth(Nth(s.blocks, s.threads[t].step.b, NoBlock).slots, c % s.bs, -1)), j);
    }
    MovesOn(s, s', t);
  }

  lemma ChunkInClaim(bs: Size, next: nat, last: nat)
    ensures ChunkEnd(bs, next, last) <= last
  {
  }

  /** Every other step of a consumer receives nothing, and leaves as much to be read. */
  lemma OthersConserve(s: State, t: Tid)
    requires Inv(s) && Conserved(s) && t < |s.threads| && s.threads[t].Busy? && !s.threads[t].step.Reading?
    ensures Conserved(Consume(s, t))
  {
    hide IndexOk, StageOk, ProducerOk, Conserved, Num, StageKnown, Times, EntryAt, PutEntry, ChunkEnd;
    var s' := Consume(s, t);
    assert ThreadOk(s, t, s.threads[t]);
    LeavesNothing(s, t);
    MovesOn(s, s', t);
  }

  lemma LeavesNothing(s: State, t: Tid)
    requires Inv(s) && t < |s.threads| && s.threads[t].Busy? && !s.threads[t].step.Reading?
    ensures var s' := Consume(s, t);
            && |s'.threads| == |s.threads| && s'.threads == s.threads[t := s'.threads[t]]
            && s'.received == s.received && s'.head == s.head && s'.bs == s.bs
            && forall j: nat :: Unread(s.bs, j, s'.threads[t]) == Unread(s.bs, j, s.threads[t])
  {
    hide IndexOk, StageOk, ProducerOk, Num, StageKnown, EntryAt, PutEntry, ChunkEnd;
    assert ThreadOk(s, t, s.threads[t]);
    var Busy(next, last, step) := s.threads[t];
    ChunkInClaim(s.bs, next, last);
    if step.LoadValue? || step.LoadKey? {
      LoadsSucceed(s, t);
    }
  }

  /** Loading a key or a value comes upon one. */
  lemma LoadsSucceed(s: State, t: Tid)
    requires Inv(s) && t < |s.threads| && s.threads[t].Busy?
    requires s.threads[t].step.LoadKey? || s.threads[t].step.LoadValue?
    ensures !Consume(s, t).threads[t].Crashed?
  {
    hide Inv, Consume;
    ConsumeKeeps(s, t);
    SameSize(s, t);
    CrashFree(Consume(s, t), t);
  }

  lemma SameSize(s: State, t: Tid)
    requires t < |s.threads| && s.threads[t].Busy?
    ensures |Consume(s, t).threads| == |s.threads|
  {
    hide EntryAt, PutEntry;
  }

  lemma CrashFree(s: State, t: Tid)
    requires Inv(s) && t < |s.threads|
    ensures !s.threads[t].Crashed?
  {
    hide IndexOk, StageOk, ProducerOk;
    assert ThreadOk(s, t, s.threads[t]);
  }

  lemma ClaimConserves(s: State, t: Tid, n: nat)
    requires Inv(s) && Conserved(s) && Enabled(s, Claim(t, n))
    ensures Conserved(Apply(s, Claim(t, n)))
  {
    hide Inv, Conserved;
    MovesOn(s, Apply(s, Claim(t, n)), t);
  }

  /** The producer receives nothing, and changes no consumer. */
  lemma ProducerMoves(s: State, a: Action)
    requires Enabled(s, a) && !a.Claim? && !a.Consumes?
    ensures var s' := Apply(s, a);
            s'.received == s.received && s'.threads == s.threads && s'.head == s.head && s'.bs == s.bs
  {
    hide EntryAt, PutEntry, SetTail;
  }

  lemma ApplyConserves(s: State, a: Action)
    requires Inv(s) && Conserved(s) && Enabled(s, a)
    ensures Conserved(Apply(s, a))
  {
    match a {
      case Claim(t, n) => ClaimConserves(s, t, n);
      case Consumes(t) => if s.threads[t].step.Reading? { ReadingConserves(s, t); } else { OthersConserve(s, t); }
      case _ =>
        hide Inv;
        ProducerMoves(s, a);
        SameUnreads(s, Apply(s, a));
    }
  }

  lemma SameUnreads(s: State, s': State)
    requires Conserved(s) && s'.received == s.received && s'.threads == s.threads
    requires s'.head == s.head && s'.bs == s.bs
    ensures Conserved(s')
  {
    forall j: nat ensures Times(s'.received, j) + Unreads(s', j) == if j < s'.head then 1 else 0 {
      assert Unreads(s', j) == Unreads(s, j);
    }
  }

  /** In every run each claimed element is received once, or one thread is still to read it, and no other element is. */
  lemma {:induction false} ElementsAreConserved(run: seq<State>, i: nat)
    requires IsRun(run) && i < |run|
    ensures Conserved(run[i])
  {
    hide Inv, Conserved;
    if i == 0 {
      StartConserves(run[0]);
    } else {
      ElementsAreConserved(run, i - 1);
      EveryRunKeepsInv(run, i - 1);
      assert Succeeds(run[i - 1], run[i - 1 + 1]);
      var a :| Enabled(run[i - 1], a) && run[i] == Apply(run[i - 1], a);
      ApplyConserves(run[i - 1], a);
    }
  }

  lemma StartConserves(s: State)
    requires Init(s)
    ensures Conserved(s)
  {
    forall j: nat ensures Times(s.received, j) + Unreads(s, j) == 0 { SumZero(s.threads, UnreadOf(s.bs, j)); }
  }

  /** Once no consumer is busy, every claimed element was received just once, as it was enqueued, and no other. */
  lemma EachElementIsReceivedOnce(run: seq<State>, i: nat, j: nat)
    requires IsRun(run) && i < |run| && forall t | 0 <= t < |run[i].threads| :: run[i].threads[t].Idle?
    ensures Times(run[i].received, j) == if j < run[i].head then 1 else 0
    ensures forall r <- run[i].received :: r.1 == r.0
  {
    hide IsRun;
    ElementsAreConserved(run, i);
    EveryElementIsRight(run, i);
    QuietMeansReceived(run[i], j);
  }

  lemma QuietMeansReceived(s: State, j: nat)
    requires Conserved(s) && forall t | 0 <= t < |s.threads| :: s.threads[t].Idle?
    ensures Times(s.received, j) == if j < s.head then 1 else 0
  {
    SumZero(s.threads, UnreadOf(s.bs, j));
    assert Times(s.received, j) + Unreads(s, j) == if j < s.head then 1 else 0;
  }

  /** How many steps a consumer has left at most until it has all elements of its claim. */
  function ReadingLeft(bs: Size, p: Pc): int {
    if !p.Busy? then 0
    else
      var left, end := 6 * (p.last - p.next), ChunkEnd(bs, p.next, p.last);
      match p.step
      case LoadHeader => left + 4
      case LoadTail(_) => left + 3
      case LoadKey(_, _) => left + 2
      case LoadValue(_, _) => left + 1
      case Reading(_, _, _, c) => 6 * (p.last - end) + (end - c) + 5
      case Counting(_, _, _) => 6 * (p.last - end) + 4
      case Clearing(_, _, _, _) => left + 3
      case Freeing(_, _, _, _) => left + 2
  }

  /** A consumer has all elements of its claim after finitely many steps. */
  lemma ConsumingEnds(run: seq<State>, i: nat, t: Tid)
    requires IsRun(run) && i < |run| && t < |run[i].threads| && run[i].threads[t].Busy?
    ensures var s, s' := run[i], Consume(run[i], t);
            |s'.threads| == |s.threads| && 0 <= ReadingLeft(s.bs, s'.threads[t]) < ReadingLeft(s.bs, s.threads[t])
  {
    hide IsRun, Inv, Consume, ReadingLeft;
    EveryRunKeepsInv(run, i);
    var s := run[i];
    SameSize(s, t);
    match s.threads[t].step
    case Counting(_, _, _) => CountingEnds(s, t);
    case Clearing(_, _, _, _) => FreeingEnds(s, t);
    case Freeing(_, _, _, _) => FreeingEnds(s, t);
    case _ => LoadingEnds(s, t);
  }

  lemma ChunkGoesOn(s: State, t: Tid)
    requires Inv(s) && t < |s.threads| && s.threads[t].Busy?
    ensures var Busy(next, last, step) := s.threads[t];
            && next <= last
            && (!step.Clearing? && !step.Freeing? ==> next < ChunkEnd(s.bs, next, last) <= last)
            && (step.Reading? ==> next <= step.c < ChunkEnd(s.bs, next, last))
  {
    hide IndexOk, StageOk, ProducerOk, Num, ChunkEnd, StageKnown;
    assert ThreadOk(s, t, s.threads[t]);
    var Busy(next, last, step) := s.threads[t];
    if next < last { NextChunk(s.bs, next, last); }
  }

  lemma LoadingEnds(s: State, t: Tid)
    requires Inv(s) && t < |s.threads| && s.threads[t].Busy?
    requires var step := s.threads[t].step; !step.Counting? && !step.Clearing? && !step.Freeing?
    ensures 0 <= ReadingLeft(s.bs, Consume(s, t).threads[t]) < ReadingLeft(s.bs, s.threads[t])
  {
    ChunkGoesOn(s, t);
    if s.threads[t].step.LoadKey? || s.threads[t].step.LoadValue? { LoadsSucceed(s, t); }
    hide Inv, EntryAt, ChunkEnd, Num;
  }

  lemma CountingEnds(s: State, t: Tid)
    requires Inv(s) && t < |s.threads| && s.threads[t].Busy? && s.threads[t].step.Counting?
    ensures 0 <= ReadingLeft(s.bs, Consume(s, t).threads[t]) < ReadingLeft(s.bs, s.threads[t])
  {
    ChunkGoesOn(s, t);
    hide Inv, EntryAt, ChunkEnd, Num;
  }

  lemma FreeingEnds(s: State, t: Tid)
    requires Inv(s) && t < |s.threads| && s.threads[t].Busy?
    requires s.threads[t].step.Clearing? || s.threads[t].step.Freeing?
    ensures 0 <= ReadingLeft(s.bs, Consume(s, t).threads[t]) < ReadingLeft(s.bs, s.threads[t])
  {
    ChunkGoesOn(s, t);
    hide Inv, EntryAt, PutEntry, ChunkEnd, Num;
  }

  // ---------------------------------------------------------------------------
  // Enqueuing
  // ---------------------------------------------------------------------------

  /** The producer takes back what it has inserted. */
  predicate Failing(p: Producer) { p.Rewind? || p.ClearSlot? || p.Undo? || p.UndoRewind? || p.UndoFree? }

  /** Up to where it enqueues. */
  function Goal(s: State): nat {
    match s.producer
    case Probe(goal) => goal
    case NeedIndex(goal) => goal
    case StoreKey(goal) => goal
    case StoreTail(goal) => goal
    case Requisition(goal) => goal
    case StoreValue(goal, _) => goal
    case Construct(goal, _) => goal
    case _ => s.tail
  }

  /** How many steps are left at most. */
  function StepsLeft(s: State): int {
    var n := |s.stages|;
    match s.producer
    case Resting => 0
    case Probe(goal) => 7 * (Blocks(s.bs, goal) - n) + 7 + (goal - s.tail)
    case NeedIndex(goal) => 7 * (Blocks(s.bs, goal) - n) + 6 + (goal - s.tail)
    case StoreKey(goal) => 7 * (Blocks(s.bs, goal) - n) + 5 + (goal - s.tail)
    case StoreTail(goal) => 7 * (Blocks(s.bs, goal) - n) + 4 + (goal - s.tail)
    case Requisition(goal) => 7 * (Blocks(s.bs, goal) - n) + 3 + (goal - s.tail)
    case StoreValue(goal, _) => 7 * (Blocks(s.bs, goal) - n) + 2 + (goal - s.tail)
    case Construct(goal, j) => goal - j + 1
    case Rewind(_) => 3 * n + 6
    case ClearSlot(_) => 3 * n + 5
    case Undo(i) => 2 * (if i < n then n - i else 0) + n + 3
    case UndoRewind(i) => 2 * (if i < n then n - i else 0) + n + 2
    case UndoFree(i) => (if i < n then n - i else 0) + 1
  }

  /** A step of an enqueue, which gives up only if `mayFail`. */
  predicate Progresses(s: State, s': State, mayFail: bool) {
    && (Failing(s'.producer) && !Failing(s.producer) ==> mayFail)
    && (Failing(s.producer) ==> Failing(s'.producer) || s'.producer.Resting?)
    && (Failing(s'.producer) == Failing(s.producer) ==> 0 <= StepsLeft(s') < StepsLeft(s))
    && s'.tail == (if s'.producer.Resting? && !Failing(s.producer) then Goal(s) else s.tail)
    && (!Failing(s'.producer) && !s'.producer.Resting? ==> Goal(s') == Goal(s))
  }

  /**
   An enqueue gives up only when there is no room for a block, no memory for the index, or no block. Until then
   it keeps its goal, and it ends after finitely many steps: with its elements published, or, if it has given up,
   with the tail as it was.
   */
  lemma EnqueueEnds(run: seq<State>, i: nat, a: Action)
    requires IsRun(run) && i < |run| && !run[i].producer.Resting? && Enabled(run[i], a)
    requires a.Produces? || a.Obtain? || a.Full?
    ensures Progresses(run[i], Apply(run[i], a), a.Full? || (a.Produces? && run[i].producer.Requisition?))
  {
    hide IsRun, Inv, Produce, Progresses;
    EveryRunKeepsInv(run, i);
    match a
    case Produces => ProducingEnds(run[i]);
    case Obtain(b) => ObtainingEnds(run[i], b);
    case Full => GivingUpEnds(run[i]);
  }

  lemma ProducingEnds(s: State)
    requires Inv(s) && !s.producer.Resting?
    ensures Progresses(s, Produce(s), s.producer.Requisition?)
  {
    hide Inv, Progresses, Produce;
    if Failing(s.producer) {
      UndoingEnds(s);
    } else if s.producer.Construct? || s.producer.StoreValue? {
      FillingEnds(s);
    } else {
      InsertingEnds(s);
    }
  }

  lemma UndoingEnds(s: State)
    requires Inv(s) && Failing(s.producer)
    ensures Progresses(s, Produce(s), false)
  {
    if s.producer.UndoRewind? { UndoneInside(s); }
    hide Inv, EntryAt, PutEntry, SetTail, Blocks, Goal, UndoSlot;
  }

  lemma UndoneInside(s: State)
    requires Inv(s) && s.producer.UndoRewind?
    ensures s.producer.i < |s.stages|
  {
    hide IndexOk, StageOk, ThreadOk, Pos, Blocks;
  }

  lemma FillingEnds(s: State)
    requires Inv(s) && (s.producer.Construct? || s.producer.StoreValue?)
    ensures Progresses(s, Produce(s), false)
  {
    BlocksOfTail(s);
    hide Inv, EntryAt, PutEntry, SetTail, Blocks, BlockOf;
  }

  lemma InsertingEnds(s: State)
    requires Inv(s) && !s.producer.Resting? && !Failing(s.producer) && !s.producer.Construct? && !s.producer.StoreValue?
    ensures Progresses(s, Produce(s), s.producer.Requisition?)
  {
    BlocksOfTail(s);
    HasHeader(s);
    hide Inv, EntryAt, PutEntry, SetTail, Grown, Blocks;
  }

  lemma ObtainingEnds(s: State, b: nat)
    requires Inv(s) && Enabled(s, Obtain(b))
    ensures Progresses(s, Requisitions(s, s.producer.goal, b), false)
  {
    BlocksOfTail(s);
    hide Inv, Blocks;
  }

  lemma GivingUpEnds(s: State)
    requires Inv(s) && Enabled(s, Full)
    ensures Progresses(s, Apply(s, Full), true)
  {
    hide Inv, Blocks;
  }

  lemma EnqueueBegins(s: State, n: nat)
    requires s.producer.Resting?
    ensures var s' := Apply(s, Enqueue(n)); !s'.producer.Resting? && !Failing(s'.producer) && Goal(s') == s.tail + n
  {
  }

  lemma BlocksOfTail(s: State)
    requires Inv(s)
    ensures !Failing(s.producer) && !s.producer.Resting? && !s.producer.Construct? ==>
              |s.stages| < Blocks(s.bs, Goal(s)) && s.tail <= Goal(s)
    ensures s.producer.Construct? ==> s.tail <= s.producer.j <= s.producer.goal
  {
    hide IndexOk, StageOk, ThreadOk, EntryAt, Pos, SlotFree, SlotTaken, Blocks;
  }

  lemma HasHeader(s: State)
    requires Inv(s)
    ensures s.headers != []
  {
    hide StageOk, ThreadOk, ProducerOk;
  }
}
