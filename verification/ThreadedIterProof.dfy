/**
 The invariant of the iterator, and every step of the producer and of consumers keeps it:
 where each cell is, that items are in order, and who will be woken by whom.
 */
module ThreadedIterProof {
  import opened Wrappers
  import opened ThreadCounting
  import opened ThreadedIter

  // ---------------------------------------------------------------------------
  // The invariant
  // ---------------------------------------------------------------------------

  function Upto(n: nat): seq<nat> { seq(n, i => i) }

  function Items(queue: seq<Filled>): seq<nat> { seq(|queue|, i requires 0 <= i < |queue| => queue[i].item) }

  function InFlight(p: Producer): seq<nat> { if p.StoreEnd? || p.Push? then OptionSeq(p.item) else [] }

  function CellOf(p: Producer): seq<Cell> { if p.Fill? || p.StoreEnd? || p.Push? then OptionSeq(p.cell) else [] }

  /** What was taken, what is queued and what is being filled are the items so far, in order. */
  predicate Ordered(s: State) {
    if s.producer.Exited? then s.taken == Upto(|s.taken|)
    else s.taken + Items(s.queue) + InFlight(s.producer) == Upto(s.position)
  }

  lemma TakenIsPrefix(s: State)
    requires Ordered(s)
    ensures s.taken == Upto(|s.taken|) && (!s.producer.Exited? ==> |s.taken| + |s.queue| <= s.position)
  {
    if !s.producer.Exited? {
      var all := s.taken + Items(s.queue) + InFlight(s.producer);
      assert all[..|s.taken|] == s.taken && Upto(s.position)[..|s.taken|] == Upto(|s.taken|);
    }
  }

  predicate Leaving(p: Producer) { p == NotifyConsumers(true) || p.Exited? }

  predicate EndOk(s: State) {
    && (s.length.Some? ==> s.position <= s.length.value)
    && (s.end ==> AtEnd(s) || Leaving(s.producer))
    && (Leaving(s.producer) ==> s.signal.Destroy?)
    && (s.producer.Fill? ==> !s.end)
    && (s.producer.StoreEnd? ==> !s.end)
    && (s.producer.StoreEnd? && s.producer.item.None? ==> AtEnd(s))
    && (s.producer.StoreEnd? && s.producer.item.Some? ==> s.producer.cell.Some?)
    && (s.producer.Push? ==> s.end == s.producer.item.None? && (s.producer.item.Some? ==> s.producer.cell.Some?))
  }

  /** All the cells there are, with the places they are in. */
  function AllCells(s: State): multiset<Cell> {
    multiset(Cells(s.queue)) + multiset(s.free) + multiset(CellOf(s.producer)) + multiset(OptionSeq(s.out))
    + multiset(s.held) + multiset(s.deleted)
  }

  predicate CellsOk(s: State) {
    && AllCells(s) == multiset(Upto(s.made))
    && |s.held| + |OptionSeq(s.out)| <= s.mostHeld
    && s.made + (if s.producer == Fill(None) then 1 else 0) <= s.max + s.mostHeld
    && (s.deleted != [] ==> s.signal.Destroy?)
  }

  function CountsAsWaiting(p: Pc): nat { if p.NextAsleep? || p.NextAwake? then 1 else 0 }

  ghost function Waiting(ts: seq<Pc>): nat { Sum(ts, CountsAsWaiting) }

  ghost predicate WaitersOk(s: State) {
    && s.waitingConsumers == Waiting(s.threads)
    && s.waitingProducers == if s.producer.Asleep? || s.producer.Awake? then 1 else 0
  }

  predicate Notifying(ts: seq<Pc>) { exists t | 0 <= t < |ts| :: ts[t].NotifyProducer? }

  predicate InWait(p: Pc) { p.ResetAsleep? || p.ResetAwake? }

  predicate Resetting(ts: seq<Pc>) { exists t | 0 <= t < |ts| :: InWait(ts[t]) }

  /** Whoever sleeps although there is something for it is about to be notified. */
  predicate SleepOk(s: State, p: Pc) {
    && (p.NextAsleep? && HasAnswer(s) ==> s.producer.Push? || s.producer.NotifyConsumers?)
    && (p.ResetAsleep? && s.processed ==> s.producer.NotifyConsumers?)
    && (InWait(p) && !s.processed ==> s.signal.Reset?)
    && (InNext(p) ==> !s.signal.Destroy?) && (InNext(p) && p.toOut ==> s.out.None?)
    && (InDestroy(p) && !p.DestroyEnter? ==> s.signal.Destroy?) && (p.Delete? ==> s.producer.Exited?)
  }

  /** Which calls run at the same time. */
  predicate Together(p: Pc, q: Pc) {
    && (InNext(p) ==> !InReset(q)) && (InReset(p) ==> !InReset(q) && !InNext(q))
    && (InDestroy(p) ==> q.Idle?) && (InDestroy(q) ==> p.Idle?)
    && !(InNext(p) && InNext(q) && p.toOut && q.toOut)
  }

  predicate CallsOk(ts: seq<Pc>) { forall t, u | 0 <= t < u < |ts| :: Together(ts[t], ts[u]) }

  /** A sleeping producer for which there is work will be notified. */
  predicate ProducerServed(s: State) { s.producer.Asleep? && HasWork(s) ==> Notifying(s.threads) }

  predicate CallersServed(s: State) {
    && (s.processed ==> s.signal.Destroy? || Resetting(s.threads))
    && (s.signal.Reset? ==> Resetting(s.threads) && !s.processed)
    && CallsOk(s.threads) && forall t | 0 <= t < |s.threads| :: SleepOk(s, s.threads[t])
  }

  predicate SignalsOk(s: State) { ProducerServed(s) && CallersServed(s) }

  ghost predicate Inv(s: State) {
    Ordered(s) && EndOk(s) && CellsOk(s) && WaitersOk(s) && SignalsOk(s)
  }

  // ---------------------------------------------------------------------------
  // Sequences and sums
  // ---------------------------------------------------------------------------

  lemma FirstOfQueue(q: seq<Filled>)
    requires q != []
    ensures Cells(q) == [q[0].cell] + Cells(q[1..]) && Items(q) == [q[0].item] + Items(q[1..])
  {
  }

  lemma QueueGrows(q: seq<Filled>, f: Filled)
    ensures Cells(q + [f]) == Cells(q) + [f.cell] && Items(q + [f]) == Items(q) + [f.item]
  {
  }

  lemma UptoGrows(n: nat)
    ensures Upto(n + 1) == Upto(n) + [n]
  {
  }

  lemma FirstOfFree(free: seq<Cell>)
    requires free != []
    ensures multiset(free) == multiset([free[0]]) + multiset(free[1..])
  {
    assert free == [free[0]] + free[1..];
  }

  lemma WithoutOne(held: seq<Cell>, i: nat)
    requires i < |held|
    ensures multiset(held) == multiset(held[..i] + held[i + 1..]) + multiset([held[i]])
  {
    assert held == held[..i] + [held[i]] + held[i + 1..];
  }

  lemma WaitingUpdate(ts: seq<Pc>, t: Tid, p: Pc)
    requires t < |ts|
    ensures Waiting(ts[t := p]) + CountsAsWaiting(ts[t]) == Waiting(ts) + CountsAsWaiting(p)
    ensures Waiting(ts) >= CountsAsWaiting(ts[t])
  {
    SumUpdate(ts, t, p, CountsAsWaiting);
  }

  lemma {:induction false} WakingKeepsCount(ts: seq<Pc>)
    ensures Waiting(WokenConsumers(ts)) == Waiting(ts)
  {
    if ts != [] {
      WakingKeepsCount(ts[1..]);
      assert WokenConsumers(ts)[1..] == WokenConsumers(ts[1..]);
    }
  }

  // ---------------------------------------------------------------------------
  // Steps of the producer
  // ---------------------------------------------------------------------------

  lemma TotalCells(s: State)
    requires AllCells(s) == multiset(Upto(s.made))
    ensures |Cells(s.queue)| + |s.free| + |CellOf(s.producer)| + |OptionSeq(s.out)| + |s.held| + |s.deleted| == s.made
  {
    assert |AllCells(s)| == |Upto(s.made)|;
  }

  /** The producer at the beginning of a round, counted as waiting. */
  predicate AtRound(s: State) { s.producer.Loop? || s.producer.Awake? }

  /** What `CellsOk` is about. */
  lemma CellsAfter(s: State, s': State)
    requires CellsOk(s) && s'.max == s.max && s'.mostHeld == s.mostHeld && s'.made == s.made
    requires s'.out == s.out && s'.held == s.held && s'.deleted == s.deleted && s'.signal == s.signal
    requires multiset(Cells(s.queue)) + multiset(s.free) + multiset(CellOf(s.producer))
          == multiset(Cells(s'.queue)) + multiset(s'.free) + multiset(CellOf(s'.producer))
    requires s'.producer == Fill(None) ==> s.producer == Fill(None)
    ensures CellsOk(s')
  {
  }

  lemma TakeFreeCells(s: State)
    requires CellsOk(s) && AtRound(s) && s.free != []
    ensures CellsOk(s.(free := s.free[1..]).To(Fill(Some(s.free[0]))))
  {
    FirstOfFree(s.free);
    CellsAfter(s, s.(free := s.free[1..]).To(Fill(Some(s.free[0]))));
  }

  /** A new cell is promised only when the queue has room and nothing is free. */
  lemma NewCellFits(s: State)
    requires CellsOk(s) && AtRound(s) && s.free == [] && |s.queue| < s.max && s.signal.Produce?
    ensures CellsOk(s.To(Fill(None)))
  {
    TotalCells(s);
    hide AllCells;
    SameCells(s, s.To(Fill(None)));
  }

  lemma RoundCells(s: State)
    requires CellsOk(s) && AtRound(s) && !s.signal.Reset?
    ensures CellsOk(Round(s))
  {
    hide AllCells;
    SameCells(s, s.(waitingProducers := s.waitingProducers - 1, end := true,
        processed := true).To(NotifyConsumers(true)));
    SameCells(s, s.To(Asleep));
    if HasWork(s) && s.signal.Produce? {
      var s1 := s.(waitingProducers := s.waitingProducers - 1);
      SameCells(s, s1);
      if s.free != [] { TakeFreeCells(s1); } else { NewCellFits(s1); }
    }
  }

  lemma ResetCells(s: State)
    requires CellsOk(s) && AtRound(s) && s.signal.Reset?
    ensures CellsOk(Round(s))
  {
    var s' := Round(s);
    assert Cells([]) == [];
    assert multiset(s.free + Cells(s.queue)) == multiset(s.free) + multiset(Cells(s.queue));
    assert s.deleted == [];
    CellsAfter(s, s'.(signal := s.signal));
  }

  lemma RoundOrdered(s: State)
    requires Ordered(s) && EndOk(s) && AtRound(s)
    ensures Ordered(Round(s)) && EndOk(Round(s))
  {
  }

  lemma RoundSignals(s: State)
    requires SignalsOk(s) && AtRound(s)
    ensures SignalsOk(Round(s))
  {
    var s' := Round(s);
    forall t | 0 <= t < |s.threads| ensures SleepOk(s', s'.threads[t]) { assert SleepOk(s, s.threads[t]); }
  }

  lemma RoundKeeps(s: State)
    requires Ordered(s) && EndOk(s) && CellsOk(s) && SignalsOk(s) && AtRound(s)
    requires s.waitingProducers == 1 && s.waitingConsumers == Waiting(s.threads)
    ensures Inv(Round(s))
  {
    hide Ordered, EndOk, CellsOk, SignalsOk, Waiting, HasWork;
    if s.signal.Reset? { ResetCells(s); } else { RoundCells(s); }
    RoundOrdered(s);
    RoundSignals(s);
  }

  /** The places of a cell, one by one. */
  lemma CountOf(s: State, c: Cell)
    ensures AllCells(s)[c]
         == multiset(Cells(s.queue))[c] + multiset(s.free)[c] + multiset(CellOf(s.producer))[c]
             + multiset(OptionSeq(s.out))[c]
            + multiset(s.held)[c] + multiset(s.deleted)[c]
  {
    hide Cells, CellOf;
  }

  lemma NewCellCounts(s: State)
    requires s.producer == Fill(None)
    ensures AllCells(s.(position := s.position + 1, made := s.made + 1).To(StoreEnd(Some(s.made), Some(s.position))))
         == AllCells(s) + multiset([s.made])
  {
    hide AllCells, Cells;
    var s' := s.(position := s.position + 1, made := s.made + 1).To(StoreEnd(Some(s.made), Some(s.position)));
    assert CellOf(s.producer) == [] && CellOf(s'.producer) == [s.made];
    forall c: Cell ensures AllCells(s')[c] == (AllCells(s) + multiset([s.made]))[c] {
      CountOf(s, c);
      CountOf(s', c);
    }
  }

  lemma NewCell(s: State)
    requires CellsOk(s) && s.producer == Fill(None)
    ensures CellsOk(s.(position := s.position + 1, made := s.made + 1).To(StoreEnd(Some(s.made), Some(s.position))))
  {
    hide AllCells, Upto;
    NewCellCounts(s);
    UptoGrows(s.made);
    assert multiset(Upto(s.made) + [s.made]) == multiset(Upto(s.made)) + multiset([s.made]);
  }

  lemma FillCells(s: State)
    requires CellsOk(s) && s.producer.Fill?
    ensures CellsOk(Produces(s))
  {
    hide AllCells;
    if !AtEnd(s) && s.producer.cell.None? {
      NewCell(s);
    } else {
      SameCells(s, Produces(s));
    }
  }

  lemma FillOrdered(s: State)
    requires Ordered(s) && EndOk(s) && s.producer.Fill?
    ensures Ordered(Produces(s)) && EndOk(Produces(s))
  {
    UptoGrows(s.position);
    hide Upto, Items;
    assert InFlight(s.producer) == [];
  }

  lemma FillSignals(s: State)
    requires SignalsOk(s) && s.producer.Fill?
    ensures SignalsOk(Produces(s))
  {
    hide CallsOk;
    var s' := Produces(s);
    forall t | 0 <= t < |s.threads| ensures SleepOk(s', s'.threads[t]) { assert SleepOk(s, s.threads[t]); }
  }

  lemma FillKeeps(s: State)
    requires Inv(s) && s.producer.Fill?
    ensures Inv(Produces(s))
  {
    hide Ordered, EndOk, CellsOk, SignalsOk, Waiting, AtEnd;
    FillCells(s);
    FillOrdered(s);
    FillSignals(s);
  }

  lemma StoreEndKeeps(s: State)
    requires Inv(s) && s.producer.StoreEnd?
    ensures Inv(Produces(s))
  {
    var s' := Produces(s);
    forall t | 0 <= t < |s.threads| ensures SleepOk(s', s'.threads[t]) { assert SleepOk(s, s.threads[t]); }
  }

  lemma {:induction false} SleeperIsCounted(ts: seq<Pc>, t: Tid)
    requires t < |ts| && ts[t].NextAsleep?
    ensures Waiting(ts) > 0
  {
    WaitingUpdate(ts, t, ts[t]);
  }

  lemma PushCells(s: State)
    requires CellsOk(s) && EndOk(s) && s.producer.Push?
    ensures CellsOk(Produces(s))
  {
    hide Cells, AtEnd;
    var s', cell, item := Produces(s), s.producer.cell, s.producer.item;
    if item.Some? {
      QueueGrows(s.queue, Filled(cell.value, item.value));
      assert s'.queue == s.queue + [Filled(cell.value, item.value)];
      assert multiset(Cells(s.queue) + [cell.value]) == multiset(Cells(s.queue)) + multiset([cell.value]);
    } else {
      assert multiset(s.free + OptionSeq(cell)) == multiset(s.free) + multiset(OptionSeq(cell));
    }
    CellsAfter(s, s');
  }

  lemma PushOrdered(s: State)
    requires Ordered(s) && EndOk(s) && s.producer.Push?
    ensures Ordered(Produces(s)) && EndOk(Produces(s))
  {
    hide Items, Upto;
    if s.producer.item.Some? { QueueGrows(s.queue, Filled(s.producer.cell.value, s.producer.item.value)); }
  }

  lemma PushSignals(s: State)
    requires SignalsOk(s) && EndOk(s) && s.producer.Push? && s.waitingConsumers == Waiting(s.threads)
    ensures SignalsOk(Produces(s))
  {
    hide Waiting, CallsOk, AtEnd;
    var s' := Produces(s);
    forall t | 0 <= t < |s.threads| ensures SleepOk(s', s'.threads[t]) {
      assert SleepOk(s, s.threads[t]);
      if s.threads[t].NextAsleep? { SleeperIsCounted(s.threads, t); }
    }
  }

  lemma PushKeeps(s: State)
    requires Inv(s) && s.producer.Push?
    ensures Inv(Produces(s))
  {
    hide Ordered, EndOk, CellsOk, SignalsOk, Waiting;
    PushCells(s);
    PushOrdered(s);
    PushSignals(s);
  }

  lemma WokenTogether(p: Pc, q: Pc)
    requires Together(p, q)
    ensures Together(WokenConsumer(p), WokenConsumer(q))
  {
  }

  lemma NotifyConsumersSignals(s: State)
    requires SignalsOk(s) && s.producer.NotifyConsumers?
    ensures SignalsOk(Produces(s))
  {
    hide Together, HasWork;
    var s' := Produces(s);
    forall t | 0 <= t < |s'.threads| ensures SleepOk(s', s'.threads[t]) { assert SleepOk(s, s.threads[t]); }
    forall t, u | 0 <= t < u < |s'.threads| ensures Together(s'.threads[t], s'.threads[u]) {
      WokenTogether(s.threads[t], s.threads[u]);
    }
    if Resetting(s.threads) {
      var t :| 0 <= t < |s.threads| && InWait(s.threads[t]);
      assert InWait(s'.threads[t]);
    }
  }

  lemma NotifyConsumersKeeps(s: State)
    requires Inv(s) && s.producer.NotifyConsumers?
    ensures Inv(Produces(s))
  {
    hide SignalsOk, Waiting, AllCells, Items, WokenConsumers;
    WakingKeepsCount(s.threads);
    NotifyConsumersSignals(s);
    TakenIsPrefix(s);
    hide Upto;
    assert AllCells(Produces(s)) == AllCells(s) by { SameCells(s, Produces(s)); }
  }

  lemma SameCells(s: State, s': State)
    requires s'.queue == s.queue && s'.free == s.free && CellOf(s'.producer) == CellOf(s.producer)
    requires s'.out == s.out && s'.held == s.held && s'.deleted == s.deleted
    ensures AllCells(s') == AllCells(s)
  {
  }

  lemma ProducesKeeps(s: State)
    requires Inv(s) && !s.producer.Exited? && !s.producer.Asleep?
    ensures Inv(Produces(s))
  {
    hide Round;
    match s.producer
    case Loop => LoopKeeps(s);
    case Awake => RoundKeeps(s);
    case Fill(_) => FillKeeps(s);
    case StoreEnd(_, _) => StoreEndKeeps(s);
    case Push(_, _) => PushKeeps(s);
    case NotifyConsumers(_) => NotifyConsumersKeeps(s);
  }

  lemma LoopKeeps(s: State)
    requires Inv(s) && s.producer.Loop?
    ensures Inv(Produces(s))
  {
    var s1 := s.(waitingProducers := s.waitingProducers + 1);
    forall t | 0 <= t < |s.threads| ensures SleepOk(s1, s1.threads[t]) { assert SleepOk(s, s.threads[t]); }
    assert AllCells(s1) == AllCells(s);
    RoundKeeps(s1);
  }

  // ---------------------------------------------------------------------------
  // Steps of the consumers
  // ---------------------------------------------------------------------------

  /** A change of a thread that concerns neither waiting, resetting nor notifying. */
  lemma ThreadIsOk(s: State, t: Tid)
    requires SignalsOk(s) && t < |s.threads|
    ensures SleepOk(s, s.threads[t])
  {
  }

  /** The call a thread is in goes on or ends. */
  predicate GoesOn(p: Pc, q: Pc) {
    && (InNext(q) ==> InNext(p) && q.toOut == p.toOut) && (InReset(q) ==> InReset(p)) && (InDestroy(q) ==> InDestroy(p))
    && (p.Idle? ==> q.Idle? || q.NotifyProducer?)
  }

  lemma GoesOnTogether(p: Pc, q: Pc, r: Pc)
    requires GoesOn(p, q) && (Together(p, r) || Together(r, p)) && (InDestroy(r) ==> q.Idle?)
    ensures Together(q, r) && Together(r, q)
  {
  }

  lemma CallsGoOn(ts: seq<Pc>, t: Tid, p: Pc)
    requires CallsOk(ts) && t < |ts| && GoesOn(ts[t], p)
    requires p.Idle? || forall u | 0 <= u < |ts| && u != t :: !InDestroy(ts[u])
    ensures CallsOk(ts[t := p])
  {
    hide Together, GoesOn, InNext, InReset, InDestroy;
    var ts' := ts[t := p];
    forall u, v | 0 <= u < v < |ts| ensures Together(ts'[u], ts'[v]) {
      assert Together(ts[u], ts[v]);
      if u == t { GoesOnTogether(ts[t], p, ts[v]); } else if v == t { GoesOnTogether(ts[t], p, ts[u]); }
    }
  }

  lemma OthersStay(ts: seq<Pc>, t: Tid, p: Pc)
    requires t < |ts|
    ensures Notifying(ts) && !ts[t].NotifyProducer? ==> Notifying(ts[t := p])
    ensures Resetting(ts) && !InWait(ts[t]) ==> Resetting(ts[t := p])
    ensures p.NotifyProducer? ==> Notifying(ts[t := p])
    ensures InWait(p) ==> Resetting(ts[t := p])
  {
    var ts' := ts[t := p];
    assert ts'[t] == p;
    if Notifying(ts) && !ts[t].NotifyProducer? {
      var u :| 0 <= u < |ts| && ts[u].NotifyProducer?;
      assert ts'[u].NotifyProducer?;
    }
    if Resetting(ts) && !InWait(ts[t]) {
      var u :| 0 <= u < |ts| && InWait(ts[u]);
      assert InWait(ts'[u]);
    }
  }

  /** The state in which `Take` begins: with thread `t` counted as waiting. */
  ghost predicate Taking(s: State, t: Tid, toOut: bool) {
    && t < |s.threads| && (s.threads[t] == NextEnter(toOut) || s.threads[t] == NextAwake(toOut))
    && s.waitingConsumers == Waiting(s.threads) - CountsAsWaiting(s.threads[t]) + 1
    && s.waitingProducers == if s.producer.Asleep? || s.producer.Awake? then 1 else 0
  }

  lemma TakeCells(s: State, t: Tid, toOut: bool)
    requires CellsOk(s) && Taking(s, t, toOut) && (toOut ==> s.out.None?)
    ensures CellsOk(Take(s, t, toOut))
  {
    hide Cells, Waiting;
    if s.queue != [] {
      var s' := Take(s, t, toOut);
      FirstOfQueue(s.queue);
      assert multiset([s.queue[0].cell] + Cells(s.queue[1..]))
          == multiset([s.queue[0].cell]) + multiset(Cells(s.queue[1..]));
      MovedCell(s, s', multiset([s.queue[0].cell]));
    }
  }

  /** A cell moves from the queue to its new owner. */
  lemma MovedCell(s: State, s': State, x: multiset<Cell>)
    requires multiset(Cells(s.queue)) == x + multiset(Cells(s'.queue))
    requires multiset(OptionSeq(s'.out)) + multiset(s'.held) == multiset(OptionSeq(s.out)) + multiset(s.held) + x
    requires s'.free == s.free && s'.producer == s.producer && s'.deleted == s.deleted
    ensures AllCells(s') == AllCells(s)
  {
    hide AllCells, Cells;
    forall c: Cell ensures AllCells(s')[c] == AllCells(s)[c] {
      CountOf(s, c);
      CountOf(s', c);
      assert multiset(Cells(s.queue))[c] == (x + multiset(Cells(s'.queue)))[c];
      assert (multiset(OptionSeq(s'.out)) + multiset(s'.held))[c]
          == (multiset(OptionSeq(s.out)) + multiset(s.held) + x)[c];
    }
  }

  lemma TakeOrdered(s: State, t: Tid, toOut: bool)
    requires Ordered(s) && EndOk(s) && Taking(s, t, toOut) && !s.signal.Destroy?
    ensures Ordered(Take(s, t, toOut)) && EndOk(Take(s, t, toOut))
  {
    hide Items, Upto, Waiting;
    if s.queue != [] { FirstOfQueue(s.queue); }
  }

  lemma TakeSignals(s: State, t: Tid, toOut: bool)
    requires SignalsOk(s) && Taking(s, t, toOut)
    ensures SignalsOk(Take(s, t, toOut))
  {
    hide Waiting, CallsOk, Notifying, Resetting;
    var s' := Take(s, t, toOut);
    var p := s'.threads[t];
    OthersStay(s.threads, t, p);
    NoDestroyer(s.threads, t);
    CallsGoOn(s.threads, t, p);
    assert s'.threads == s.threads[t := p];
    forall u | 0 <= u < |s.threads| ensures SleepOk(s', s'.threads[u]) {
      ThreadIsOk(s, u);
      if u != t { TogetherWith(s.threads, t, u); }
    }
  }

  lemma TogetherWith(ts: seq<Pc>, t: Tid, u: Tid)
    requires CallsOk(ts) && t < |ts| && u < |ts| && t != u
    ensures Together(ts[t], ts[u]) || Together(ts[u], ts[t])
  {
    assert t < u ==> Together(ts[t], ts[u]);
    assert u < t ==> Together(ts[u], ts[t]);
  }

  lemma NoDestroyer(ts: seq<Pc>, t: Tid)
    requires CallsOk(ts) && t < |ts| && !ts[t].Idle?
    ensures forall u | 0 <= u < |ts| && u != t :: !InDestroy(ts[u])
  {
    forall u | 0 <= u < |ts| && u != t ensures !InDestroy(ts[u]) { TogetherWith(ts, t, u); }
  }

  lemma TakeKeeps(s: State, t: Tid, toOut: bool)
    requires Ordered(s) && EndOk(s) && CellsOk(s) && SignalsOk(s) && Taking(s, t, toOut)
    ensures Inv(Take(s, t, toOut))
  {
    hide Ordered, EndOk, CellsOk, SignalsOk, Waiting, HasAnswer;
    ThreadIsOk(s, t);
    OutIsFree(s.threads[t], s, toOut);
    TakeCells(s, t, toOut);
    TakeOrdered(s, t, toOut);
    TakeSignals(s, t, toOut);
    WaitingUpdate(s.threads, t, Take(s, t, toOut).threads[t]);
  }

  lemma OutIsFree(p: Pc, s: State, toOut: bool)
    requires SleepOk(s, p) && (p == NextEnter(toOut) || p == NextAwake(toOut))
    ensures (toOut ==> s.out.None?) && !s.signal.Destroy?
  {
  }

  lemma NextKeeps(s: State, t: Tid)
    requires Inv(s) && t < |s.threads| && (s.threads[t].NextEnter? || s.threads[t].NextAwake?)
    ensures Inv(Consumes(s, t))
  {
    hide Waiting, AllCells, Items, CallsOk, Notifying, Resetting, Take;
    var s1 := if s.threads[t].NextEnter? then s.(waitingConsumers := s.waitingConsumers + 1) else s;
    SameCells(s, s1);
    forall u | 0 <= u < |s.threads| ensures SleepOk(s1, s1.threads[u]) { ThreadIsOk(s, u); }
    TakeKeeps(s1, t, s.threads[t].toOut);
  }

  lemma GiveBackCells(s: State, s1: State, t: Tid, cell: Cell)
    requires CellsOk(s) && t < |s.threads| && s1.threads == s.threads
    requires s1 == s.(out := s1.out, held := s1.held) && |s1.held| + |OptionSeq(s1.out)| <= |s.held|
             + |OptionSeq(s.out)|
    requires multiset(OptionSeq(s.out)) + multiset(s.held)
          == multiset(OptionSeq(s1.out)) + multiset(s1.held) + multiset([cell])
    ensures CellsOk(GiveBack(s1, t, cell))
  {
    hide AllCells, Cells, Upto;
    var s' := GiveBack(s1, t, cell);
    assert multiset(s.free + [cell]) == multiset(s.free) + multiset([cell]);
    forall c: Cell ensures AllCells(s')[c] == AllCells(s)[c] {
      CountOf(s, c);
      CountOf(s', c);
      assert (multiset(OptionSeq(s.out)) + multiset(s.held))[c]
          == (multiset(OptionSeq(s1.out)) + multiset(s1.held) + multiset([cell]))[c];
    }
    assert AllCells(s') == AllCells(s);
  }

  /** A step after which a cell is free that was not: the producer, if it sleeps, will be notified. */
  lemma GiveBackSignals(s: State, s': State, t: Tid)
    requires SignalsOk(s) && t < |s.threads| && !s.threads[t].NotifyProducer? && !InWait(s.threads[t])
    requires s'.threads == s.threads[t := if s.waitingProducers != 0 && !s.end then NotifyProducer else Idle]
    requires s.waitingProducers == if s.producer.Asleep? || s.producer.Awake? then 1 else 0
    requires s' == s.(free := s'.free, out := s'.out, held := s'.held, threads := s'.threads)
    requires (s'.out == s.out || s'.out.None?) && NoDestroy(s)
    ensures SignalsOk(s')
  {
    hide CallsOk, Notifying, Resetting;
    OthersStay(s.threads, t, s'.threads[t]);
    CallsGoOn(s.threads, t, s'.threads[t]);
    forall u | 0 <= u < |s.threads| ensures SleepOk(s', s'.threads[u]) { ThreadIsOk(s, u); }
  }

  lemma GiveBackKeeps(s: State, s1: State, t: Tid, cell: Cell)
    requires Inv(s) && t < |s.threads| && s.threads[t].Idle? && NoDestroy(s)
    requires s1 == s.(out := s1.out, held := s1.held) && |s1.held| + |OptionSeq(s1.out)| <= |s.held|
             + |OptionSeq(s.out)|
    requires multiset(OptionSeq(s.out)) + multiset(s.held)
          == multiset(OptionSeq(s1.out)) + multiset(s1.held) + multiset([cell])
    requires s1.out == s.out || s1.out.None?
    ensures Inv(GiveBack(s1, t, cell))
  {
    hide CellsOk, SignalsOk, Waiting, Items;
    var s' := GiveBack(s1, t, cell);
    GiveBackCells(s, s1, t, cell);
    GiveBackSignals(s, s', t);
    WaitingUpdate(s.threads, t, s'.threads[t]);
  }

  lemma RecycleKeeps(s: State, t: Tid, i: nat)
    requires Inv(s) && Enabled(s, Recycle(t, i))
    ensures Inv(Apply(s, Recycle(t, i)))
  {
    hide CellsOk, SignalsOk, WaitersOk, Ordered, EndOk;
    WithoutOne(s.held, i);
    GiveBackKeeps(s, s.(held := s.held[..i] + s.held[i + 1..]), t, s.held[i]);
  }

  lemma RecycleOutKeeps(s: State, t: Tid)
    requires Inv(s) && Enabled(s, RecycleOut(t))
    ensures Inv(Apply(s, RecycleOut(t)))
  {
    hide CellsOk, SignalsOk, WaitersOk, Ordered, EndOk;
    assert OptionSeq<Cell>(None) == [];
    GiveBackKeeps(s, s.(out := None), t, s.out.value);
  }

  // ---------------------------------------------------------------------------
  // Resetting, destroying and waking
  // ---------------------------------------------------------------------------

  lemma OutToFree(s: State)
    requires CellsOk(s)
    ensures CellsOk(s.(free := s.free + OptionSeq(s.out), out := None))
  {
    hide AllCells, Cells, Upto;
    var s' := s.(free := s.free + OptionSeq(s.out), out := None);
    assert multiset(s.free + OptionSeq(s.out)) == multiset(s.free) + multiset(OptionSeq(s.out));
    forall c: Cell ensures AllCells(s')[c] == AllCells(s)[c] {
      CountOf(s, c);
      CountOf(s', c);
    }
    assert AllCells(s') == AllCells(s);
  }

  /** What `CellsOk` and `Ordered` are not about. */
  lemma SameStock(s: State, s': State)
    requires s'.max == s.max && s'.made == s.made && s'.mostHeld == s.mostHeld && s'.queue == s.queue
             && s'.free == s.free
    requires s'.out == s.out && s'.held == s.held && s'.deleted == s.deleted
    requires s'.producer == s.producer || (s.producer.Asleep? && s'.producer.Awake?)
    requires s.signal.Destroy? ==> s'.signal.Destroy?
    requires CellsOk(s)
    ensures CellsOk(s')
  {
    hide AllCells;
    SameCells(s, s');
  }

  /** A change of the signal that wakes the producer. */
  lemma SignalCallers(s: State, t: Tid, signal: Signal, p: Pc)
    requires CallersServed(s) && t < |s.threads| && (s.threads[t].ResetEnter? || s.threads[t].DestroyEnter?)
    requires if s.threads[t].ResetEnter? then signal.Reset? && p.ResetAsleep? && !s.signal.Destroy? && !s.processed
             else signal.Destroy? && p.Join?
    ensures CallersServed(s.(signal := signal, producer := WokenProducer(s.producer)).Go(t, p))
  {
    hide CallsOk, Notifying, Resetting;
    var s' := s.(signal := signal, producer := WokenProducer(s.producer)).Go(t, p);
    OthersStay(s.threads, t, p);
    NoDestroyer(s.threads, t);
    CallsGoOn(s.threads, t, p);
    forall u | 0 <= u < |s.threads| ensures SleepOk(s', s'.threads[u]) {
      CallerIsServed(s, u);
      if u != t { TogetherWith(s.threads, t, u); }
    }
  }

  lemma CallerIsServed(s: State, t: Tid)
    requires CallersServed(s) && t < |s.threads|
    ensures SleepOk(s, s.threads[t])
  {
  }

  lemma SignalKeeps(s: State, t: Tid, signal: Signal, p: Pc)
    requires Ordered(s) && EndOk(s) && CellsOk(s) && WaitersOk(s) && CallersServed(s)
    requires t < |s.threads| && (s.threads[t].ResetEnter? || s.threads[t].DestroyEnter?)
    requires if s.threads[t].ResetEnter? then signal.Reset? && p.ResetAsleep? && !s.signal.Destroy? && !s.processed
             else signal.Destroy? && p.Join?
    ensures Inv(s.(signal := signal, producer := WokenProducer(s.producer)).Go(t, p))
  {
    hide Ordered, CellsOk, Waiting, CallersServed;
    var s' := s.(signal := signal, producer := WokenProducer(s.producer)).Go(t, p);
    SignalCallers(s, t, signal, p);
    SameStock(s, s');
    SameOrder(s, s');
    WaitingUpdate(s.threads, t, p);
  }

  lemma SameOrder(s: State, s': State)
    requires s'.taken == s.taken && s'.queue == s.queue && InFlight(s'.producer) == InFlight(s.producer)
             && s'.position == s.position
    requires s'.producer.Exited? == s.producer.Exited?
    ensures Ordered(s') == Ordered(s)
  {
  }

  /** Nothing is processed before it is asked for. */
  lemma NotProcessedYet(s: State, t: Tid)
    requires SignalsOk(s) && t < |s.threads| && s.threads[t].ResetEnter? && !s.signal.Destroy?
    ensures !s.processed && !s.signal.Reset?
  {
    hide HasWork;
    forall u | 0 <= u < |s.threads| ensures !InWait(s.threads[u]) {
      if u != t { TogetherWith(s.threads, t, u); }
    }
  }

  lemma OutToFreeCallers(s: State)
    requires CallersServed(s)
    ensures CallersServed(s.(free := s.free + OptionSeq(s.out), out := None))
  {
    hide CallsOk, Resetting;
    var s1 := s.(free := s.free + OptionSeq(s.out), out := None);
    forall u | 0 <= u < |s.threads| ensures SleepOk(s1, s1.threads[u]) { CallerIsServed(s, u); }
  }

  lemma ResetEnterKeeps(s: State, t: Tid)
    requires Inv(s) && t < |s.threads| && s.threads[t].ResetEnter?
    ensures Inv(Consumes(s, t))
  {
    hide CellsOk, CallersServed, Waiting, Items;
    var s1 := s.(free := s.free + OptionSeq(s.out), out := None);
    OutToFree(s);
    OutToFreeCallers(s);
    if s.signal.Destroy? {
      EnteringCaller(s1, t);
      QuietKeeps(s1, t, Idle);
    } else {
      NotProcessedYet(s, t);
      SignalKeeps(s1, t, Reset, ResetAsleep);
    }
  }

  lemma EnteringCaller(s: State, t: Tid)
    requires CallersServed(s) && t < |s.threads| && s.threads[t].ResetEnter?
    ensures SleepOk(s, Idle) && CallsOk(s.threads[t := Idle])
  {
    NoDestroyer(s.threads, t);
    CallsGoOn(s.threads, t, Idle);
  }

  lemma QuietCallers(s: State, t: Tid, p: Pc)
    requires CallersServed(s) && t < |s.threads| && (InWait(s.threads[t]) ==> InWait(p))
    requires SleepOk(s, p) && CallsOk(s.threads[t := p])
    ensures CallersServed(s.Go(t, p))
  {
    hide CallsOk, Resetting;
    OthersStay(s.threads, t, p);
    forall u | 0 <= u < |s.threads| ensures SleepOk(s.Go(t, p), s.Go(t, p).threads[u]) { CallerIsServed(s, u); }
  }

  /** A call goes on, begins or ends without a change to anything shared. */
  lemma QuietKeeps(s: State, t: Tid, p: Pc)
    requires Inv(s) && t < |s.threads| && !s.threads[t].NotifyProducer? && (InWait(s.threads[t]) ==> InWait(p))
    requires CountsAsWaiting(p) == CountsAsWaiting(s.threads[t]) && SleepOk(s, p) && CallsOk(s.threads[t := p])
    ensures Inv(s.Go(t, p))
  {
    hide CellsOk, CallersServed, Waiting, Notifying, Resetting, SleepOk, CallsOk;
    QuietCallers(s, t, p);
    OthersStay(s.threads, t, p);
    WaitingUpdate(s.threads, t, p);
    SameStock(s, s.Go(t, p));
    SameOrder(s, s.Go(t, p));
  }

  lemma ResetAwakeKeeps(s: State, t: Tid)
    requires Inv(s) && t < |s.threads| && s.threads[t].ResetAwake?
    ensures Inv(Consumes(s, t))
  {
    hide CellsOk, Waiting, Items, CallsOk, Resetting, Notifying;
    ThreadIsOk(s, t);
    NoDestroyer(s.threads, t);
    var s' := Consumes(s, t);
    CallsGoOn(s.threads, t, s'.threads[t]);
    if !s.processed {
      QuietKeeps(s, t, ResetAsleep);
    } else {
      WaitingUpdate(s.threads, t, s'.threads[t]);
      SameStock(s, s');
      SameOrder(s, s');
      ResetDoneSignals(s, t);
    }
  }

  /** The one who asked for the reset has seen it done. */
  lemma ResetDoneSignals(s: State, t: Tid)
    requires SignalsOk(s) && t < |s.threads| && s.threads[t].ResetAwake? && s.processed
    requires s.waitingProducers == if s.producer.Asleep? || s.producer.Awake? then 1 else 0
    ensures SignalsOk(Consumes(s, t))
  {
    hide CallsOk, Notifying, Resetting;
    var s' := Consumes(s, t);
    NoDestroyer(s.threads, t);
    CallsGoOn(s.threads, t, s'.threads[t]);
    OthersStay(s.threads, t, s'.threads[t]);
    forall u | 0 <= u < |s.threads| ensures SleepOk(s', s'.threads[u]) {
      ThreadIsOk(s, u);
      if u != t { TogetherWith(s.threads, t, u); }
    }
  }

  lemma NotifyProducerKeeps(s: State, t: Tid)
    requires Inv(s) && t < |s.threads| && s.threads[t].NotifyProducer?
    ensures Inv(Consumes(s, t))
  {
    hide CellsOk, Waiting, Items, CallersServed;
    var s' := Consumes(s, t);
    WaitingUpdate(s.threads, t, Idle);
    SameStock(s, s');
    SameOrder(s, s');
    NotifyProducerCallers(s, t);
  }

  lemma NotifyProducerCallers(s: State, t: Tid)
    requires CallersServed(s) && t < |s.threads| && s.threads[t].NotifyProducer?
    ensures CallersServed(Consumes(s, t))
  {
    hide CallsOk, Notifying, Resetting;
    var s' := Consumes(s, t);
    NoDestroyer(s.threads, t);
    CallsGoOn(s.threads, t, Idle);
    OthersStay(s.threads, t, Idle);
    forall u | 0 <= u < |s.threads| ensures SleepOk(s', s'.threads[u]) { CallerIsServed(s, u); }
  }

  lemma DestroyEnterKeeps(s: State, t: Tid)
    requires Inv(s) && t < |s.threads| && s.threads[t].DestroyEnter?
    ensures Inv(Consumes(s, t))
  {
    hide Ordered, EndOk, CellsOk, WaitersOk, CallersServed;
    SignalKeeps(s, t, Destroy, Join);
  }

  lemma JoinKeeps(s: State, t: Tid)
    requires Inv(s) && t < |s.threads| && s.threads[t].Join?
    ensures Inv(Consumes(s, t))
  {
    hide CellsOk, Waiting, Items, CallsOk, Resetting, Notifying;
    if s.producer.Exited? {
      ThreadIsOk(s, t);
      NoDestroyer(s.threads, t);
      CallsGoOn(s.threads, t, Delete);
      QuietKeeps(s, t, Delete);
    }
  }

  lemma DeleteCells(s: State, t: Tid)
    requires CellsOk(s) && t < |s.threads| && s.threads[t].Delete? && s.signal.Destroy?
    ensures CellsOk(Consumes(s, t))
  {
    hide AllCells, Cells, Upto;
    var s' := Consumes(s, t);
    assert Cells([]) == [] by { NoCells(); }
    assert multiset(s'.deleted) == multiset(s.deleted) + multiset(s.free) + multiset(Cells(s.queue))
        + multiset(OptionSeq(s.out));
    forall c: Cell ensures AllCells(s')[c] == AllCells(s)[c] {
      CountOf(s, c);
      CountOf(s', c);
    }
    assert AllCells(s') == AllCells(s);
  }

  lemma NoCells()
    ensures Cells([]) == []
  {
  }

  lemma DeleteKeeps(s: State, t: Tid)
    requires Inv(s) && t < |s.threads| && s.threads[t].Delete?
    ensures Inv(Consumes(s, t))
  {
    hide CellsOk, Waiting, CallersServed, Items, Cells, Upto;
    ThreadIsOk(s, t);
    DeleteCells(s, t);
    WaitingUpdate(s.threads, t, Idle);
    DeleteCallers(s, t);
  }

  lemma DeleteCallers(s: State, t: Tid)
    requires SignalsOk(s) && t < |s.threads| && s.threads[t].Delete?
    ensures CallersServed(Consumes(s, t))
  {
    hide CallsOk, Notifying, Resetting, Cells;
    var s' := Consumes(s, t);
    NoDestroyer(s.threads, t);
    CallsGoOn(s.threads, t, Idle);
    OthersStay(s.threads, t, Idle);
    forall u | 0 <= u < |s.threads| ensures SleepOk(s', s'.threads[u]) {
      ThreadIsOk(s, u);
      if u != t { TogetherWith(s.threads, t, u); }
    }
  }

  // ---------------------------------------------------------------------------
  // Beginning calls and waking for no reason
  // ---------------------------------------------------------------------------

  lemma CallsBegin(ts: seq<Pc>, t: Tid, p: Pc)
    requires CallsOk(ts) && t < |ts|
    requires forall u | 0 <= u < |ts| && u != t :: Together(p, ts[u]) && Together(ts[u], p)
    ensures CallsOk(ts[t := p])
  {
    hide Together;
    var ts' := ts[t := p];
    forall u, v | 0 <= u < v < |ts| ensures Together(ts'[u], ts'[v]) {
      assert Together(ts[u], ts[v]);
    }
  }

  lemma BeginNextKeeps(s: State, t: Tid, toOut: bool)
    requires Inv(s) && Enabled(s, BeginNext(t, toOut))
    ensures Inv(Apply(s, BeginNext(t, toOut)))
  {
    hide Ordered, EndOk, CellsOk, WaitersOk, Resetting, CallsOk, Notifying;
    CallsBegin(s.threads, t, NextEnter(toOut)) by { assert CallsOk(s.threads) by { CallsAreOk(s); } }
    QuietKeeps(s, t, NextEnter(toOut));
  }

  lemma CallsAreOk(s: State)
    requires CallersServed(s)
    ensures CallsOk(s.threads)
  {
  }

  lemma BeginResetKeeps(s: State, t: Tid)
    requires Inv(s) && Enabled(s, BeginReset(t))
    ensures Inv(Apply(s, BeginReset(t)))
  {
    hide Ordered, EndOk, CellsOk, WaitersOk, Resetting, CallsOk, Notifying;
    CallsAreOk(s);
    CallsBegin(s.threads, t, ResetEnter);
    QuietKeeps(s, t, ResetEnter);
  }

  lemma BeginDestroyKeeps(s: State, t: Tid)
    requires Inv(s) && Enabled(s, BeginDestroy(t))
    ensures Inv(Apply(s, BeginDestroy(t)))
  {
    hide Ordered, EndOk, CellsOk, WaitersOk, Resetting, CallsOk, Notifying;
    CallsAreOk(s);
    CallsBegin(s.threads, t, DestroyEnter);
    QuietKeeps(s, t, DestroyEnter);
  }

  lemma WakesKeeps(s: State, t: Tid)
    requires Inv(s) && Enabled(s, Wakes(t))
    ensures Inv(Apply(s, Wakes(t)))
  {
    hide Ordered, EndOk, CellsOk, WaitersOk, Resetting, CallsOk, Notifying;
    ThreadIsOk(s, t);
    NoDestroyer(s.threads, t);
    CallsAreOk(s);
    CallsGoOn(s.threads, t, WokenConsumer(s.threads[t]));
    QuietKeeps(s, t, WokenConsumer(s.threads[t]));
  }

  lemma ProducerWakesKeeps(s: State)
    requires Inv(s) && Enabled(s, ProducerWakes)
    ensures Inv(Apply(s, ProducerWakes))
  {
    hide CellsOk, Waiting, Items, CallsOk, Resetting, Notifying;
    SameStock(s, s.To(Awake));
    forall u | 0 <= u < |s.threads| ensures SleepOk(s.To(Awake), s.threads[u]) { ThreadIsOk(s, u); }
  }

  /** `Delete` comes after the producer has left. */
  lemma ConsumesKeeps(s: State, t: Tid)
    requires Inv(s) && t < |s.threads| && !s.threads[t].Idle?
    ensures Inv(Consumes(s, t))
  {
    hide Ordered, EndOk, CellsOk, WaitersOk, SignalsOk, Take;
    match s.threads[t]
    case NextEnter(_) => NextKeeps(s, t);
    case NextAwake(_) => NextKeeps(s, t);
    case ResetEnter => ResetEnterKeeps(s, t);
    case ResetAwake => ResetAwakeKeeps(s, t);
    case NotifyProducer => NotifyProducerKeeps(s, t);
    case DestroyEnter => DestroyEnterKeeps(s, t);
    case Join => JoinKeeps(s, t);
    case Delete => DeleteKeeps(s, t);
    case NextAsleep(_) => { }
    case ResetAsleep => { }
  }
}
