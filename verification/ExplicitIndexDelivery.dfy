module ExplicitIndexDelivery {
  /**
   What the explicit producer and its consumers get done: every claimed element is received just once, an
   enqueue ends with its element published unless there is no room or no memory for it, and a block that is
   empty is taken again.
   */

  import opened Wrappers
  import opened ThreadCounting
  import opened ModArithmetic
  import opened IndexBlocks
  import opened ExplicitIndex
  import opened ExplicitIndexInvariant
  import opened ExplicitIndexSteps
  import opened ExplicitIndexProducer
  import opened ExplicitIndexRuns

  // ---------------------------------------------------------------------------
  // Delivery
  // ---------------------------------------------------------------------------

  /** Index `j` is claimed by the thread, and it has not read the element yet. */
  function Unread(bs: Size, j: nat, p: Pc): nat {
    if !p.Busy? then 0
    else
      var from := match p.step
                  case Reading(_, _, _, c) => c
                  case Flagging(_, _, _, _) => ChunkEnd(bs, p.next, p.last)
                  case _ => p.next;
      if from <= j < p.last then 1 else 0
  }

  function UnreadOf(bs: Size, j: nat): (f: Pc -> nat)
    ensures forall p :: f(p) == Unread(bs, j, p)
  {
    p => Unread(bs, j, p)
  }

  ghost function Unreads(s: State, j: nat): nat { Sum(s.threads, UnreadOf(s.bs, j)) }

  /** Every claimed index has been received once, or one thread is still to read it. */
  ghost predicate Conserved(s: State) {
    forall j: nat :: Times(s.received, j) + Unreads(s, j) == if j < s.head then 1 else 0
  }

  /** Thread `t` has moved on, and has received what it does not have to read any more. */
  lemma MovesOn(s: State, s': State, t: Tid)
    requires Conserved(s) && t < |s.threads| == |s'.threads| && s'.threads == s.threads[t := s'.threads[t]]
    requires s'.bs == s.bs && s'.head >= s.head
    requires forall j: nat ::
               Times(s'.received, j) + Unread(s.bs, j, s'.threads[t])
               == Times(s.received, j) + Unread(s.bs, j, s.threads[t]) + if s.head <= j < s'.head then 1 else 0
    ensures Conserved(s')
  {
    hide Unread, Times;
    forall j: nat ensures Times(s'.received, j) + Unreads(s', j) == if j < s'.head then 1 else 0 {
      SumUpdate(s.threads, t, s'.threads[t], UnreadOf(s.bs, j));
      assert Times(s.received, j) + Unreads(s, j) == if j < s.head then 1 else 0;
    }
  }

  /** Where a thread is in the chunk it deals with. */
  lemma ChunkGoesOn(s: State, t: Tid)
    requires Inv(s) && t < |s.threads| && s.threads[t].Busy?
    ensures var Busy(next, last, step) := s.threads[t];
            && next < ChunkEnd(s.bs, next, last) <= last
            && (step.Reading? ==> next <= step.c < ChunkEnd(s.bs, next, last))
            && (step.Flagging? ==> step.done < ChunkEnd(s.bs, next, last) - next)
  {
    hide IndexOk, ListOk, BlocksOk, ProducerOk, Num, ChunkEnd;
    ThreadIsOk(s, t);
    NextChunk(s.bs, s.threads[t].next, s.threads[t].last);
  }

  lemma SameSize(s: State, t: Tid)
    requires t < |s.threads| && s.threads[t].Busy?
    ensures |Consume(s, t).threads| == |s.threads|
  {
    hide EntryAt;
  }

  lemma LoadsSucceed(s: State, t: Tid)
    requires Inv(s) && t < |s.threads| && s.threads[t].Busy?
    ensures !Consume(s, t).threads[t].Crashed?
  {
    hide Inv, Consume;
    ConsumeKeeps(s, t);
    SameSize(s, t);
    CrashFree(Consume(s, t), t);
  }

  lemma CrashFree(s: State, t: Tid)
    requires Inv(s) && t < |s.threads|
    ensures !s.threads[t].Crashed?
  {
    hide IndexOk, ListOk, BlocksOk, ProducerOk;
    assert ThreadOk(s, s.threads[t]);
  }

  lemma ReadingConserves(s: State, t: Tid)
    requires Inv(s) && Conserved(s) && t < |s.threads| && s.threads[t].Busy? && s.threads[t].step.Reading?
    ensures Conserved(Consume(s, t))
  {
    ChunkGoesOn(s, t);
    hide Inv, ChunkEnd, Conserved, Times;
    var s', c := Consume(s, t), s.threads[t].step.c;
    forall j: nat
      ensures Times(s'.received, j) + Unread(s.bs, j, s'.threads[t])
           == Times(s.received, j) + Unread(s.bs, j, s.threads[t])
    {
      TimesAppended(s.received, (c, Nth(BlockAt(s, s.threads[t].step.b).slots, c % s.bs, -1)), j);
    }
    MovesOn(s, s', t);
  }

  /** Every other step of a consumer receives nothing, and leaves as much to be read. */
  lemma OthersConserve(s: State, t: Tid)
    requires Inv(s) && Conserved(s) && t < |s.threads| && s.threads[t].Busy? && !s.threads[t].step.Reading?
    ensures Conserved(Consume(s, t))
  {
    hide Inv, Conserved, Times, Consume, Unread;
    LeavesNothing(s, t);
    MovesOn(s, Consume(s, t), t);
  }

  lemma LeavesNothing(s: State, t: Tid)
    requires Inv(s) && t < |s.threads| && s.threads[t].Busy? && !s.threads[t].step.Reading?
    ensures var s' := Consume(s, t);
            && |s'.threads| == |s.threads| && s'.threads == s.threads[t := s'.threads[t]]
            && s'.received == s.received && s'.head == s.head && s'.bs == s.bs
            && forall j: nat :: Unread(s.bs, j, s'.threads[t]) == Unread(s.bs, j, s.threads[t])
  {
    hide Unread;
    SameReceived(s, t);
    forall j: nat ensures Unread(s.bs, j, Consume(s, t).threads[t]) == Unread(s.bs, j, s.threads[t]) {
      SameUnread(s, t, j);
    }
  }

  lemma SameReceived(s: State, t: Tid)
    requires t < |s.threads| && s.threads[t].Busy? && !s.threads[t].step.Reading?
    ensures var s' := Consume(s, t);
            && |s'.threads| == |s.threads| && s'.threads == s.threads[t := s'.threads[t]]
            && s'.received == s.received && s'.head == s.head && s'.bs == s.bs
  {
    hide Num, EntryAt, ChunkEnd, BlockAt;
  }

  lemma SameUnread(s: State, t: Tid, j: nat)
    requires Inv(s) && t < |s.threads| && s.threads[t].Busy? && !s.threads[t].step.Reading?
    ensures var s' := Consume(s, t);
            |s'.threads| == |s.threads| && Unread(s.bs, j, s'.threads[t]) == Unread(s.bs, j, s.threads[t])
  {
    ChunkGoesOn(s, t);
    LoadsSucceed(s, t);
    hide Inv, Num, EntryAt, ChunkEnd, BlockAt;
  }

  lemma ClaimConserves(s: State, t: Tid, n: nat)
    requires Conserved(s) && Enabled(s, Claim(t, n))
    ensures Conserved(Apply(s, Claim(t, n)))
  {
    hide Conserved;
    MovesOn(s, Apply(s, Claim(t, n)), t);
  }

  /** The producer receives nothing, and changes no consumer. */
  lemma ProducerMoves(s: State, a: Action)
    requires Enabled(s, a) && !a.Claim? && !a.Consumes?
    ensures var s' := Apply(s, a);
            s'.received == s.received && s'.threads == s.threads && s'.head == s.head && s'.bs == s.bs
  {
    hide EntryAt, BlockAt, SetCur;
  }

  lemma ApplyConserves(s: State, a: Action)
    requires Inv(s) && Conserved(s) && Enabled(s, a)
    ensures Conserved(Apply(s, a))
  {
    match a {
      case Claim(t, n) => ClaimConserves(s, t, n);
      case Consumes(t) => if s.threads[t].step.Reading? { ReadingConserves(s, t); } else { OthersConserve(s, t); }
      case _ =>
        hide Inv;
        ProducerMoves(s, a);
        SameUnreads(s, Apply(s, a));
    }
  }

  lemma SameUnreads(s: State, s': State)
    requires Conserved(s) && s'.received == s.received && s'.threads == s.threads
    requires s'.head == s.head && s'.bs == s.bs
    ensures Conserved(s')
  {
    forall j: nat ensures Times(s'.received, j) + Unreads(s', j) == if j < s'.head then 1 else 0 {
      assert Unreads(s', j) == Unreads(s, j);
    }
  }

  /** In every run each claimed element is received once, or one thread is still to read it, and no other element is. */
  lemma {:induction false} ElementsAreConserved(run: seq<State>, i: nat)
    requires IsRun(run) && i < |run|
    ensures Conserved(run[i])
  {
    hide Inv, Conserved;
    if i == 0 {
      StartConserves(run[0]);
    } else {
      ElementsAreConserved(run, i - 1);
      EveryRunKeepsInv(run, i - 1);
      assert Succeeds(run[i - 1], run[i - 1 + 1]);
      var a :| Enabled(run[i - 1], a) && run[i] == Apply(run[i - 1], a);
      ApplyConserves(run[i - 1], a);
    }
  }

  lemma StartConserves(s: State)
    requires Init(s)
    ensures Conserved(s)
  {
    forall j: nat ensures Times(s.received, j) + Unreads(s, j) == 0 { SumZero(s.threads, UnreadOf(s.bs, j)); }
  }

  /** Once no consumer is busy, every claimed element was received just once, as it was enqueued, and no other. */
  lemma EachElementIsReceivedOnce(run: seq<State>, i: nat, j: nat)
    requires IsRun(run) && i < |run| && forall t | 0 <= t < |run[i].threads| :: run[i].threads[t].Idle?
    ensures Times(run[i].received, j) == if j < run[i].head then 1 else 0
    ensures forall r <- run[i].received :: r.1 == r.0
  {
    hide IsRun;
    ElementsAreConserved(run, i);
    EveryElementIsRight(run, i);
    QuietMeansReceived(run[i], j);
  }

  lemma QuietMeansReceived(s: State, j: nat)
    requires Conserved(s) && forall t | 0 <= t < |s.threads| :: s.threads[t].Idle?
    ensures Times(s.received, j) == if j < s.head then 1 else 0
  {
    SumZero(s.threads, UnreadOf(s.bs, j));
    assert Times(s.received, j) + Unreads(s, j) == if j < s.head then 1 else 0;
  }

  /** How many steps a consumer has left at most until it has all elements of its claim and has set their flags. */
  function ReadingLeft(bs: Size, p: Pc): int {
    if !p.Busy? then 0
    else
      var left, end := 6 * (p.last - p.next), ChunkEnd(bs, p.next, p.last);
      match p.step
      case LoadIndex => left + 4
      case LoadFront(_) => left + 3
      case LoadBase(_, _) => left + 2
      case LoadBlock(_, _) => left + 1
      case Reading(_, _, _, c) => 6 * (p.last - end) + (end - c) + (end - p.next) + 3
      case Flagging(_, _, _, done) => 6 * (p.last - end) + (end - p.next - done) + 2
  }

  /** A consumer has all elements of its claim after finitely many steps. */
  lemma ConsumingEnds(run: seq<State>, i: nat, t: Tid)
    requires IsRun(run) && i < |run| && t < |run[i].threads| && run[i].threads[t].Busy?
    ensures var s, s' := run[i], Consume(run[i], t);
            |s'.threads| == |s.threads| && 0 <= ReadingLeft(s.bs, s'.threads[t]) < ReadingLeft(s.bs, s.threads[t])
  {
    hide IsRun, Inv, Consume, ReadingLeft;
    EveryRunKeepsInv(run, i);
    SameSize(run[i], t);
    if run[i].threads[t].step.Flagging? { FlaggingEnds(run[i], t); } else { LoadingEnds(run[i], t); }
  }

  lemma LoadingEnds(s: State, t: Tid)
    requires Inv(s) && t < |s.threads| && s.threads[t].Busy? && !s.threads[t].step.Flagging?
    ensures |Consume(s, t).threads| == |s.threads|
    ensures 0 <= ReadingLeft(s.bs, Consume(s, t).threads[t]) < ReadingLeft(s.bs, s.threads[t])
  {
    ChunkGoesOn(s, t);
    SameSize(s, t);
    LoadsSucceed(s, t);
    hide Inv, EntryAt, ChunkEnd, Num, BlockAt;
  }

  lemma FlaggingEnds(s: State, t: Tid)
    requires Inv(s) && t < |s.threads| && s.threads[t].Busy? && s.threads[t].step.Flagging?
    ensures |Consume(s, t).threads| == |s.threads|
    ensures 0 <= ReadingLeft(s.bs, Consume(s, t).threads[t]) < ReadingLeft(s.bs, s.threads[t])
  {
    ChunkGoesOn(s, t);
    SameSize(s, t);
    hide Inv, EntryAt, ChunkEnd, BlockAt, Flag;
  }

  // ---------------------------------------------------------------------------
  // Enqueuing
  // ---------------------------------------------------------------------------

  /** How many steps an enqueue has left at most. */
  function StepsLeft(s: State): int {
    match s.producer
    case Resting => 0
    case Checking(i) => 8 + s.bs - i
    case NeedRoom => 7
    case Requisition => 6
    case StoreBase => 5
    case StoreBlock => 4
    case StoreFront => 3
    case Construct => 2
    case Publish => 1
  }

  /**
   An enqueue ends after finitely many steps, with its element published; without it only when there is no
   room for a block, no memory for the index, or no block.
   */
  lemma EnqueueEnds(run: seq<State>, i: nat, a: Action)
    requires IsRun(run) && i < |run| && !run[i].producer.Resting? && Enabled(run[i], a)
    requires a.Produces? || a.Obtain? || a.Full?
    ensures var s, s' := run[i], Apply(run[i], a);
            && 0 <= StepsLeft(s') < StepsLeft(s)
            && (s'.producer.Resting? ==>
                  s'.tail == s.tail + 1 || a.Full? || (a.Produces? && s.producer.Requisition?))
            && (!s'.producer.Resting? ==> s'.tail == s.tail)
  {
    hide IsRun, Inv, Produce, StepsLeft;
    EveryRunKeepsInv(run, i);
    match a
    case Produces => ProducingEnds(run[i]);
    case Obtain(b) => ObtainingEnds(run[i], b);
    case Full => GivingUpEnds(run[i]);
  }

  lemma ProducingEnds(s: State)
    requires Inv(s) && !s.producer.Resting?
    ensures var s' := Produce(s);
            && 0 <= StepsLeft(s') < StepsLeft(s)
            && (s'.producer.Resting? ==> s'.tail == s.tail + 1 || s.producer.Requisition?)
            && (!s'.producer.Resting? ==> s'.tail == s.tail)
  {
    hide Inv, Produce, StepsLeft;
    match s.producer
    case Checking(_) => SearchingEnds(s);
    case NeedRoom => SearchingEnds(s);
    case Requisition => SearchingEnds(s);
    case _ => FillingEnds(s);
  }

  lemma SearchingEnds(s: State)
    requires Inv(s) && (s.producer.Checking? || s.producer.NeedRoom? || s.producer.Requisition?)
    ensures var s' := Produce(s);
            && 0 <= StepsLeft(s') < StepsLeft(s)
            && (s'.producer.Resting? ==> s'.tail == s.tail + 1 || s.producer.Requisition?)
            && (!s'.producer.Resting? ==> s'.tail == s.tail)
  {
    HasHeader(s);
    if s.producer.Checking? { CheckingInside(s); }
    hide Inv, EntryAt, BlockAt, SetCur, Grown, Blocks, Num;
  }

  lemma FillingEnds(s: State)
    requires Inv(s) && !s.producer.Resting?
    requires !s.producer.Checking? && !s.producer.NeedRoom? && !s.producer.Requisition?
    ensures var s' := Produce(s);
            && 0 <= StepsLeft(s') < StepsLeft(s)
            && (s'.producer.Resting? ==> s'.tail == s.tail + 1 || s.producer.Requisition?)
            && (!s'.producer.Resting? ==> s'.tail == s.tail)
  {
    hide Inv, EntryAt, BlockAt, SetCur, Num, OldEntry, TailBlock;
  }

  lemma ObtainingEnds(s: State, b: nat)
    requires Enabled(s, Obtain(b))
    ensures var s' := Link(s, b); 0 <= StepsLeft(s') < StepsLeft(s) && s'.producer.StoreBase? && s'.tail == s.tail
  {
  }

  lemma GivingUpEnds(s: State)
    requires Enabled(s, Full)
    ensures var s' := Apply(s, Full); 0 == StepsLeft(s') < StepsLeft(s) && s'.tail == s.tail
  {
  }

  lemma HasHeader(s: State)
    requires Inv(s)
    ensures s.headers != []
  {
    hide ListOk, BlocksOk, ThreadsOk, ProducerOk;
  }

  lemma CheckingInside(s: State)
    requires Inv(s) && s.producer.Checking?
    ensures s.producer.i < s.bs
  {
    hide IndexOk, ListOk, BlocksOk, ThreadsOk;
  }

  /** A block all of whose elements are gone is taken again, and not another one. */
  lemma EmptyBlockIsTakenAgain(run: seq<State>, i: nat)
    requires IsRun(run) && i < |run| && run[i].producer.Checking? && run[i].window != []
    requires forall j: nat | j < Base(run[i].bs, run[i].first + 1) :: Done(run[i], j)
    ensures var s' := Produce(run[i]);
            || (s'.producer.Checking? && s'.producer.i == run[i].producer.i + 1)
            || (s'.producer.StoreBase? && s'.tailBlock == Some(run[i].window[0]))
  {
    EveryRunKeepsInv(run, i);
    var s := run[i];
    AheadIsOldest(s);
    CheckingInside(s);
    OldestFlags(s, s.producer.i);
    hide IsRun, Inv, Done, BlockAt;
  }

  lemma OldestFlags(s: State, i: nat)
    requires Inv(s) && s.window != [] && i < s.bs
    requires forall j: nat | j < Base(s.bs, s.first + 1) :: Done(s, j)
    ensures Nth(BlockAt(s, s.window[0]).flags, i, false) && s.tailBlock.Some?
  {
    hide IndexOk, ThreadsOk, ProducerOk, Done, Num, Base;
    assert BlockOk(s, s.first, s.window[0]);
    var j := Base(s.bs, s.first) + (s.bs - 1 - i);
    BaseOrder(s.bs, s.first, s.first + 1);
    NumUnique(s.bs, j, s.first);
    NumFacts(s.bs, j);
    assert Flag(s.bs, j) == i;
    assert Done(s, j);
  }
}
