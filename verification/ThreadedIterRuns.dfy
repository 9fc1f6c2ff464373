module ThreadedIterRuns {
  /** What holds in every run of the iterator. */

  import opened Wrappers
  import opened ThreadCounting
  import opened ThreadedIter
  import opened ThreadedIterProof

  lemma ApplyKeeps(s: State, a: Action)
    requires Inv(s) && Enabled(s, a)
    ensures Inv(Apply(s, a))
  {
    hide Inv, Produces, Consumes, GiveBack;
    match a
    case ProducerStep => ProducesKeeps(s);
    case ProducerWakes => ProducerWakesKeeps(s);
    case Step(t) => ConsumesKeeps(s, t);
    case Wakes(t) => WakesKeeps(s, t);
    case BeginNext(t, toOut) => BeginNextKeeps(s, t, toOut);
    case Recycle(t, i) => RecycleKeeps(s, t, i);
    case RecycleOut(t) => RecycleOutKeeps(s, t);
    case BeginReset(t) => BeginResetKeeps(s, t);
    case BeginDestroy(t) => BeginDestroyKeeps(s, t);
  }

  lemma InitHolds(s: State)
    requires Init(s)
    ensures Inv(s)
  {
    SumZero(s.threads, CountsAsWaiting);
    assert Upto(0) == [] && Cells([]) == [] && Items([]) == [];
  }

  lemma {:induction false} EveryRunKeepsInv(run: seq<State>, i: nat)
    requires IsRun(run) && i < |run|
    ensures Inv(run[i])
  {
    if i == 0 {
      InitHolds(run[0]);
    } else {
      EveryRunKeepsInv(run, i - 1);
      assert Succeeds(run[i - 1], run[i - 1 + 1]);
      var a :| Enabled(run[i - 1], a) && run[i] == Apply(run[i - 1], a);
      ApplyKeeps(run[i - 1], a);
    }
  }

  /** What `Next` returned since the last reset are the first items of the producer, in order and without gaps. */
  lemma NextReturnsAPrefix(run: seq<State>, i: nat)
    requires IsRun(run) && i < |run|
    ensures run[i].taken == Upto(|run[i].taken|)
  {
    hide IsRun, Upto, CellsOk, SignalsOk, WaitersOk;
    EveryRunKeepsInv(run, i);
    TakenIsPrefix(run[i]);
  }

  /** `Next` finds the end only when the producer's sequence is finite and all of it has been returned. */
  lemma EndMeansAll(run: seq<State>, i: nat, t: Tid)
    requires IsRun(run) && i < |run| && t < |run[i].threads|
    requires run[i].threads[t].NextEnter? || run[i].threads[t].NextAwake?
    requires run[i].queue == [] && run[i].end
    ensures run[i].length.Some? && run[i].taken == Upto(run[i].length.value)
    ensures Consumes(run[i], t).threads[t].Idle? && Consumes(run[i], t).taken == run[i].taken
  {
    hide IsRun, Upto, CellsOk, CallersServed;
    EveryRunKeepsInv(run, i);
    ThreadIsOk(run[i], t);
    assert Items([]) == [];
  }

  /** `Next` has handed out the next item of the sequence, in a cell that is the consumers' from then on. */
  predicate HandsOut(s: State, s': State, toOut: bool) {
    && s'.taken == s.taken + [|s.taken|]
    && (toOut ==> s'.out.Some? && s'.held == s.held)
    && (!toOut ==> s'.out == s.out && |s'.held| == |s.held| + 1 && s'.held[..|s.held|] == s.held)
  }

  /** `Next` has found that all of a finite sequence was handed out. */
  predicate FindsEnd(s: State, s': State) {
    && s.length.Some? && s'.taken == s.taken == Upto(s.length.value)
    && s'.held == s.held && s'.out == s.out
  }

  /**
   Whenever `Next` runs, it hands out the next item, or finds the end of a sequence that was handed out
   completely, or sleeps; and it sleeps only when all that was produced so far was handed out and there may be more.
   */
  lemma NextAnswers(run: seq<State>, i: nat, t: Tid)
    requires IsRun(run) && i < |run| && t < |run[i].threads|
    requires run[i].threads[t].NextEnter? || run[i].threads[t].NextAwake?
    ensures var s, p := run[i], run[i].threads[t];
            var s' := Consumes(s, t);
            if s'.threads[t].NextAsleep? then
              s'.taken == s.taken && s'.held == s.held && s'.out == s.out && !s.end
              && s.taken + InFlight(s.producer) == Upto(s.position)
            else HandsOut(s, s', p.toOut) || FindsEnd(s, s')
  {
    hide IsRun, Upto, CellsOk, CallersServed, SignalsOk;
    EveryRunKeepsInv(run, i);
    var s := run[i];
    ThreadIsOk(s, t);
    if s.queue == [] {
      assert Items([]) == [] && s.taken + [] == s.taken;
      if s.end { EndMeansAll(run, i, t); }
    } else {
      FirstItem(s);
    }
  }

  /** The first item in the queue is the one behind those that were handed out. */
  lemma FirstItem(s: State)
    requires Ordered(s) && !s.producer.Exited? && s.queue != []
    ensures s.queue[0].item == |s.taken|
  {
    var all := s.taken + Items(s.queue) + InFlight(s.producer);
    assert all[|s.taken|] == s.queue[0].item;
    assert Upto(s.position)[|s.taken|] == |s.taken|;
  }

  /** A processed reset has been followed by nothing yet. */
  predicate StartedOver(s: State) { s.processed && !s.signal.Destroy? ==> s.taken == [] }

  lemma NextFindsNoReset(s: State, t: Tid)
    requires Inv(s) && t < |s.threads| && InNext(s.threads[t])
    ensures !s.processed
  {
    hide CellsOk, Ordered, WaitersOk, HasAnswer, HasWork;
    ThreadIsOk(s, t);
    forall u | 0 <= u < |s.threads| ensures !InWait(s.threads[u]) {
      if u != t { TogetherWith(s.threads, t, u); }
    }
  }

  lemma ProducerStartsOver(s: State)
    requires Enabled(s, ProducerStep) && StartedOver(s)
    ensures StartedOver(Produces(s))
  {
    hide HasWork, WokenConsumers, Cells, AtEnd;
  }

  lemma ConsumerStartsOver(s: State, t: Tid)
    requires Inv(s) && Enabled(s, Step(t)) && StartedOver(s)
    ensures StartedOver(Consumes(s, t))
  {
    hide Inv, Consumes;
    if InNext(s.threads[t]) {
      NextFindsNoReset(s, t);
      NextKeepsProcessed(s, t);
    } else {
      OthersKeepTaken(s, t);
    }
  }

  lemma NextKeepsProcessed(s: State, t: Tid)
    requires t < |s.threads| && InNext(s.threads[t])
    ensures Consumes(s, t).processed == s.processed
  {
    hide HasAnswer, Cells, Max;
  }

  lemma OthersKeepTaken(s: State, t: Tid)
    requires t < |s.threads| && !s.threads[t].Idle? && !InNext(s.threads[t])
    ensures var s' := Consumes(s, t);
            s'.taken == s.taken && (s'.processed ==> s.processed) && (s.signal.Destroy? ==> s'.signal.Destroy?)
  {
    hide Take, Cells;
  }

  lemma StepStartsOver(s: State, a: Action)
    requires Inv(s) && Enabled(s, a) && StartedOver(s)
    ensures StartedOver(Apply(s, a))
  {
    hide Inv, Produces, Consumes, MayReset, MayTake, MayTakeOut, AllIdle, NoDestroy;
    match a
    case ProducerStep => ProducerStartsOver(s);
    case Step(t) => ConsumerStartsOver(s, t);
    case _ =>
  }

  lemma {:induction false} ResetsStartOver(run: seq<State>, i: nat)
    requires IsRun(run) && i < |run|
    ensures StartedOver(run[i])
  {
    hide Inv;
    if i > 0 {
      ResetsStartOver(run, i - 1);
      EveryRunKeepsInv(run, i - 1);
      assert Succeeds(run[i - 1], run[i - 1 + 1]);
      var a :| Enabled(run[i - 1], a) && run[i] == Apply(run[i - 1], a);
      StepStartsOver(run[i - 1], a);
    }
  }

  /**
   `BeforeFirst` returns only after the producer has started over: unless the iterator is being destroyed, the
   next item to be handed out is then the first one.
   */
  lemma ResetIsAwaited(run: seq<State>, i: nat, t: Tid)
    requires IsRun(run) && i < |run| && t < |run[i].threads| && InReset(run[i].threads[t])
    ensures var s, s' := run[i], Consumes(run[i], t);
            !InReset(s'.threads[t]) && !s.signal.Destroy? ==> s'.taken == [] && !s'.processed && s'.signal.Produce?
  {
    hide IsRun, CellsOk, Ordered, WaitersOk, HasWork;
    EveryRunKeepsInv(run, i);
    ResetsStartOver(run, i);
    ThreadIsOk(run[i], t);
  }

  /** `n` steps of the producer's thread alone, or as many as it makes before it sleeps or is done. */
  function AloneProducer(s: State, n: nat): State
    decreases n
  {
    if n == 0 || s.producer.Asleep? || s.producer.Exited? then s else AloneProducer(Produces(s), n - 1)
  }

  /** The producer has put the next item of its sequence, in a free or new cell, behind those that are queued. */
  predicate Queues(s: State, s': State) {
    && s'.position == s.position + 1 && !s'.end
    && s'.queue == s.queue + [Filled(if s.free == [] then s.made else s.free[0], s.position)]
    && s'.free == (if s.free == [] then [] else s.free[1..]) && s'.made == s.made + if s.free == [] then 1 else 0
  }

  /** The producer has found the end of its sequence. */
  predicate Stops(s: State, s': State) {
    s'.position == s.position && s'.end && s'.queue == s.queue && |s'.free| == |s.free| && s'.made == s.made
  }

  /** The producer starts over. */
  predicate StartsOver(s: State, s': State) {
    && s'.signal.Produce? && s'.processed && s'.position == 0 && !s'.end
    && s'.queue == [] && s'.free == s.free + Cells(s.queue)
  }

  /**
   A round of the producer that is not disturbed does what it is asked for: it queues the next item, or finds the
   end; it starts over; or it ends. Consumers that wait are notified.
   */
  lemma UndisturbedRound(s: State)
    requires AtRound(s) && HasWork(s)
    ensures match s.signal
            case Produce =>
              var s' := AloneProducer(s, 4);
              && (if AtEnd(s) then Stops(s, s') else Queues(s, s'))
              && s'.producer == (if s.waitingConsumers != 0 then NotifyConsumers(false) else Loop)
              && s'.taken == s.taken && s'.held == s.held && s'.threads == s.threads
            case Reset =>
              var s' := AloneProducer(s, 2);
              s'.producer.Loop? && s'.threads == WokenConsumers(s.threads) && StartsOver(s, s')
            case Destroy =>
              var s' := AloneProducer(s, 2);
              s'.producer.Exited? && s'.threads == WokenConsumers(s.threads) && s'.processed && s'.end
  {
    hide Queues, Stops, StartsOver, HasWork, AloneProducer;
    if s.signal.Produce? { ProducingRound(s); } else { SignalledRound(s); }
  }

  lemma ProducingRound(s: State)
    requires AtRound(s) && HasWork(s) && s.signal.Produce?
    ensures var s' := AloneProducer(s, 4);
            && (if AtEnd(s) then Stops(s, s') else Queues(s, s'))
            && s'.producer == (if s.waitingConsumers != 0 then NotifyConsumers(false) else Loop)
            && s'.taken == s.taken && s'.held == s.held && s'.threads == s.threads
  {
    hide Queues, Stops;
    var s1 := Produces(s);
    assert s1.producer == Fill(if s.free == [] then None else Some(s.free[0])) && s1.queue == s.queue;
    FillingRound(s1);
    assert AloneProducer(s, 4) == AloneProducer(s1, 3);
    SameRound(s, s1, AloneProducer(s1, 3));
  }

  /** The cell to be filled is no longer among the free ones. */
  predicate FillsNext(s: State, s': State, cell: Option<Cell>) {
    && s'.position == s.position + 1 && !s'.end
    && s'.queue == s.queue + [Filled(if cell.None? then s.made else cell.value, s.position)]
    && s'.free == s.free && s'.made == s.made + if cell.None? then 1 else 0
  }

  predicate FindsNone(s: State, s': State, cell: Option<Cell>) {
    && s'.position == s.position && s'.end && s'.queue == s.queue && s'.made == s.made
    && s'.free == s.free + OptionSeq(cell)
  }

  lemma FillingRound(s: State)
    requires s.producer.Fill? && !s.end
    ensures var s' := AloneProducer(s, 3);
            && (if AtEnd(s) then FindsNone(s, s', s.producer.cell) else FillsNext(s, s', s.producer.cell))
            && s'.producer == (if s.waitingConsumers != 0 then NotifyConsumers(false) else Loop)
            && s'.taken == s.taken && s'.held == s.held && s'.threads == s.threads
  {
    var s1 := Produces(s);
    assert s1.producer.StoreEnd?;
    var s2 := Produces(s1);
    Filling(s);
    assert AloneProducer(s, 3) == Produces(s2) by {
      hide Produces;
      assert AloneProducer(s, 3) == AloneProducer(s1, 2) == AloneProducer(s2, 1) == AloneProducer(Produces(s2), 0);
    }
    hide AtEnd, AloneProducer;
    assert Produces(s2).producer == if s.waitingConsumers != 0 then NotifyConsumers(false) else Loop;
  }

  lemma Filling(s: State)
    requires s.producer.Fill?
    ensures Produces(s).producer.StoreEnd?
    ensures var cell := if s.producer.cell.Some? then s.producer.cell.value else s.made;
            var made := s.made + if s.producer.cell.None? then 1 else 0;
            Produces(Produces(s))
              == if AtEnd(s) then s.(end := true).To(Push(s.producer.cell, None))
                 else s.(position := s.position + 1, made := made, end := false).To(Push(Some(cell), Some(s.position)))
  {
  }

  lemma SameRound(s: State, s1: State, s': State)
    requires s1.queue == s.queue && s1.position == s.position && s1.made == s.made
    requires s1.free == if s.free == [] then [] else s.free[1..]
    ensures var cell := if s.free == [] then None else Some(s.free[0]);
            (FindsNone(s1, s', cell) ==> Stops(s, s')) && (FillsNext(s1, s', cell) ==> Queues(s, s'))
  {
  }

  lemma SignalledRound(s: State)
    requires AtRound(s) && !s.signal.Produce?
    ensures var s' := AloneProducer(s, 2);
            && s'.threads == WokenConsumers(s.threads)
            && (s.signal.Reset? ==> s'.producer.Loop? && StartsOver(s, s'))
            && (s.signal.Destroy? ==> s'.producer.Exited? && s'.processed && s'.end)
  {
    hide WokenConsumers, Cells;
    var s1 := Produces(s);
    assert AloneProducer(s, 2) == AloneProducer(s1, 1) == AloneProducer(Produces(s1), 0);
  }

  /**
   Every cell that was ever allocated is in one place: queued, free, being filled, owned by a consumer, or
   deleted.
   */
  lemma EachCellHasOnePlace(run: seq<State>, i: nat, c: Cell)
    requires IsRun(run) && i < |run|
    ensures var s := run[i];
            multiset(Cells(s.queue))[c] + multiset(s.free)[c] + multiset(CellOf(s.producer))[c]
                + multiset(OptionSeq(s.out))[c]
            + multiset(s.held)[c] + multiset(s.deleted)[c] == if c < s.made then 1 else 0
  {
    hide IsRun, AllCells, Cells, CellOf, SignalsOk;
    EveryRunKeepsInv(run, i);
    CountOf(run[i], c);
    UptoCounts(run[i].made, c);
  }

  lemma {:induction false} UptoCounts(n: nat, c: Cell)
    ensures multiset(Upto(n))[c] == if c < n then 1 else 0
  {
    if n > 0 {
      UptoCounts(n - 1, c);
      UptoGrows(n - 1);
    }
  }

  /** No more cells than the capacity and the most that consumers ever owned at once. */
  lemma CellsAreBounded(run: seq<State>, i: nat)
    requires IsRun(run) && i < |run|
    ensures run[i].made <= run[i].max + run[i].mostHeld
  {
    hide IsRun, AllCells, SignalsOk;
    EveryRunKeepsInv(run, i);
  }

  /** `Next` never finds a reset in progress, and a reset never finds an answer to an earlier one. */
  lemma ChecksHold(run: seq<State>, i: nat, t: Tid)
    requires IsRun(run) && i < |run| && t < |run[i].threads|
    ensures InNext(run[i].threads[t]) ==> run[i].signal.Produce?
    ensures run[i].threads[t].ResetEnter? && !run[i].signal.Destroy? ==> !run[i].processed
  {
    hide IsRun, CellsOk, Ordered, WaitersOk;
    EveryRunKeepsInv(run, i);
    var s := run[i];
    ThreadIsOk(s, t);
    if s.threads[t].ResetEnter? && !s.signal.Destroy? { NotProcessedYet(s, t); }
    if InNext(s.threads[t]) {
      forall u | 0 <= u < |s.threads| ensures !InWait(s.threads[u]) {
        if u != t { TogetherWith(s.threads, t, u); }
      }
    }
  }

  /**
   No wakeup is lost. When no notification of the producer is outstanding, a sleeping producer
   has nothing to do; so with room for at least one cell it never sleeps while a consumer
   sleeps in `Next`, nor while one waits for a reset that is not processed.
   */
  lemma NeverBothAsleep(run: seq<State>, i: nat, t: Tid)
    requires IsRun(run) && i < |run| && t < |run[i].threads|
    requires run[i].producer.Asleep? && !Notifying(run[i].threads)
    ensures !HasWork(run[i])
    ensures run[i].max > 0 ==> !run[i].threads[t].NextAsleep?
    ensures !run[i].threads[t].ResetAsleep?
  {
    hide IsRun, CellsOk, Ordered, WaitersOk, CallsOk, Resetting;
    EveryRunKeepsInv(run, i);
    ThreadIsOk(run[i], t);
  }

  /** A sleeping consumer for whom there is something is about to be notified by the producer. */
  lemma ConsumersAreNotified(run: seq<State>, i: nat, t: Tid)
    requires IsRun(run) && i < |run| && t < |run[i].threads|
    ensures run[i].threads[t].NextAsleep? && HasAnswer(run[i])
            ==> run[i].producer.Push? || run[i].producer.NotifyConsumers?
    ensures run[i].threads[t].NextAsleep? && run[i].producer.Push? ==> Produces(run[i]).producer.NotifyConsumers?
    ensures run[i].threads[t].ResetAsleep? && run[i].processed ==> run[i].producer.NotifyConsumers?
  {
    hide IsRun, CellsOk, Ordered, CallsOk, Resetting;
    EveryRunKeepsInv(run, i);
    ThreadIsOk(run[i], t);
    if run[i].threads[t].NextAsleep? { SleeperIsCounted(run[i].threads, t); }
  }

  /** When `Destroy` returns, every cell is either deleted, once, or still owned by a consumer. */
  lemma DestroyDeletesTheRest(run: seq<State>, i: nat, t: Tid, c: Cell)
    requires IsRun(run) && i < |run| && t < |run[i].threads| && InDestroy(run[i].threads[t]) && c < run[i].made
    requires !InDestroy(Consumes(run[i], t).threads[t])
    ensures var s' := Consumes(run[i], t);
            multiset(s'.deleted)[c] + multiset(s'.held)[c] == 1 && s'.producer.Exited?
  {
    hide IsRun, CellsOk, Ordered, CallsOk, Resetting, AllCells, Cells;
    EveryRunKeepsInv(run, i);
    ThreadIsOk(run[i], t);
    EachCellHasOnePlace(run, i, c);
    var s := run[i];
    assert multiset(Consumes(s, t).deleted)
        == multiset(s.deleted) + multiset(s.free) + multiset(Cells(s.queue)) + multiset(OptionSeq(s.out));
  }
}
