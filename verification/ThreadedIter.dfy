module ThreadedIter {
  /**
   The iterator that produces ahead in a thread of its own: a producer and any number of
   consumers around a mutex, two condition variables, a queue of filled cells and a queue
   of free cells to fill again.

   A critical section is one step. The producer's `next` and its store of `produce_end_`
   lie outside of them, and so do the notifications after a section; a sleeping thread
   may also wake up for no reason. The data are represented by their position in the
   producer's sequence, which may be endless.
   */

  import opened Wrappers
  import opened ThreadCounting

  type Cell = nat

  datatype Filled = Filled(cell: Cell, item: nat)

  datatype Signal = Produce | Reset | Destroy

  datatype Producer =
    | Loop                                             // about to lock
    | Asleep
    | Awake                                            // notified, about to lock again
    | Fill(cell: Option<Cell>)                         // calling `next`
    | StoreEnd(cell: Option<Cell>, item: Option<nat>)
    | Push(cell: Option<Cell>, item: Option<nat>)
    | NotifyConsumers(exit: bool)
    | Exited

  datatype Pc =
    | Idle
    | NextEnter(toOut: bool)
    | NextAsleep(toOut: bool)
    | NextAwake(toOut: bool)
    | ResetEnter
    | ResetAsleep
    | ResetAwake
    | NotifyProducer
    | DestroyEnter
    | Join
    | Delete

  /**
   `out` is `out_data_` and `held` are the other cells that consumers own. The rest is not
   stored by the program: `made` counts the cells ever allocated, `mostHeld` is the most
   that consumers ever owned, `deleted` are the cells that `Destroy` deleted, and `taken`
   are the items that `Next` returned since the producer was last reset.
   */
  datatype State = State(
    max: nat, length: Option<nat>, position: nat, signal: Signal, processed: bool, end: bool,
    waitingConsumers: int, waitingProducers: int, queue: seq<Filled>, free: seq<Cell>, out: Option<Cell>,
    held: seq<Cell>, producer: Producer, threads: seq<Pc>,
    made: nat, mostHeld: nat, deleted: seq<Cell>, taken: seq<nat>)
  {
    function Go(t: Tid, p: Pc): State
      requires t < |threads|
    {
      this.(threads := threads[t := p])
    }

    function To(p: Producer): State { this.(producer := p) }
  }

  function Max(a: nat, b: nat): nat { if a > b then a else b }

  function OptionSeq<T>(o: Option<T>): seq<T> { if o.Some? then [o.value] else [] }

  function Cells(queue: seq<Filled>): seq<Cell> {
    seq(|queue|, i requires 0 <= i < |queue| => queue[i].cell)
  }

  // ---------------------------------------------------------------------------
  // Waiting and waking
  // ---------------------------------------------------------------------------

  /** What the producer waits for. */
  predicate HasWork(s: State) {
    s.signal.Produce? ==> !s.end && (|s.queue| < s.max || s.free != [])
  }

  /** What `Next` waits for. */
  predicate HasAnswer(s: State) { s.queue != [] || s.end }

  function WokenConsumer(p: Pc): Pc {
    if p.NextAsleep? then NextAwake(p.toOut) else if p.ResetAsleep? then ResetAwake else p
  }

  function WokenConsumers(ts: seq<Pc>): seq<Pc> {
    seq(|ts|, t requires 0 <= t < |ts| => WokenConsumer(ts[t]))
  }

  function WokenProducer(p: Producer): Producer { if p.Asleep? then Awake else p }

  // ---------------------------------------------------------------------------
  // The producer's thread
  // ---------------------------------------------------------------------------

  predicate AtEnd(s: State) { s.length.Some? && s.position >= s.length.value }

  /** The section that begins a round, entered with the producer counted as waiting. */
  function Round(s: State): State {
    if !HasWork(s) then s.To(Asleep)
    else
      var s1 := s.(waitingProducers := s.waitingProducers - 1);
      match s.signal
      case Produce =>
        if s.free == [] then s1.To(Fill(None)) else s1.(free := s.free[1..]).To(Fill(Some(s.free[0])))
      case Reset =>
        s1.(position := 0, queue := [], free := s.free + Cells(s.queue), end := false, processed := true,
            signal := Produce, taken := [])
        .To(NotifyConsumers(false))
      case Destroy => s1.(processed := true, end := true).To(NotifyConsumers(true))
  }

  function Produces(s: State): State
    requires !s.producer.Exited? && !s.producer.Asleep?
  {
    match s.producer
    case Loop => Round(s.(waitingProducers := s.waitingProducers + 1))
    case Awake => Round(s)
    case Fill(cell) =>
      if AtEnd(s) then s.To(StoreEnd(cell, None))
      else if cell.Some? then s.(position := s.position + 1).To(StoreEnd(cell, Some(s.position)))
      else s.(position := s.position + 1, made := s.made + 1).To(StoreEnd(Some(s.made), Some(s.position)))
    case StoreEnd(cell, item) => s.(end := item.None?).To(Push(cell, item))
    case Push(cell, item) =>
      var s1 := if !s.end && cell.Some? && item.Some? then s.(queue := s.queue + [Filled(cell.value, item.value)])
                else s.(free := s.free + OptionSeq(cell));
      s1.To(if s.waitingConsumers != 0 then NotifyConsumers(false) else Loop)
    case NotifyConsumers(exit) =>
      s.(threads := WokenConsumers(s.threads)).To(if exit then Exited else Loop)
  }

  // ---------------------------------------------------------------------------
  // The consumers' calls
  // ---------------------------------------------------------------------------

  /** `Next` with the lock and counted as waiting: it takes a cell, finds the end, or sleeps. */
  function Take(s: State, t: Tid, toOut: bool): State
    requires t < |s.threads|
  {
    if !HasAnswer(s) then s.Go(t, NextAsleep(toOut))
    else
      var s1 := s.(waitingConsumers := s.waitingConsumers - 1);
      if s.queue == [] then s1.Go(t, Idle)
      else
        var f := s.queue[0];
        var owned := |s.held| + 1 + |OptionSeq(s.out)|;
        s1.(queue := s.queue[1..], taken := s.taken + [f.item], mostHeld := Max(s.mostHeld, owned),
            held := if toOut then s.held else s.held + [f.cell], out := if toOut then Some(f.cell) else s.out)
        .Go(t, if s.waitingProducers != 0 && !s.end then NotifyProducer else Idle)
  }

  /** A cell comes back. */
  function GiveBack(s: State, t: Tid, cell: Cell): State
    requires t < |s.threads|
  {
    s.(free := s.free + [cell]).Go(t, if s.waitingProducers != 0 && !s.end then NotifyProducer else Idle)
  }

  function Consumes(s: State, t: Tid): State
    requires t < |s.threads| && !s.threads[t].Idle?
  {
    match s.threads[t]
    case NextEnter(toOut) => Take(s.(waitingConsumers := s.waitingConsumers + 1), t, toOut)
    case NextAwake(toOut) => Take(s, t, toOut)
    case ResetEnter =>
      var s1 := s.(free := s.free + OptionSeq(s.out), out := None);
      if s.signal.Destroy? then s1.Go(t, Idle)
      else s1.(signal := Reset, producer := WokenProducer(s.producer)).Go(t, ResetAsleep)
    case ResetAwake =>
      if !s.processed then s.Go(t, ResetAsleep)
      else s.(processed := false).Go(t, if s.waitingProducers != 0 && !s.end then NotifyProducer else Idle)
    case NotifyProducer => s.(producer := WokenProducer(s.producer)).Go(t, Idle)
    case DestroyEnter => s.(signal := Destroy, producer := WokenProducer(s.producer)).Go(t, Join)
    case Join => if s.producer.Exited? then s.Go(t, Delete) else s
    case Delete =>
      s.(deleted := s.deleted + s.free + Cells(s.queue) + OptionSeq(s.out), free := [], queue := [],
          out := None).Go(t, Idle)
    case NextAsleep(_) => s
    case ResetAsleep => s
  }

  // ---------------------------------------------------------------------------
  // Runs
  // ---------------------------------------------------------------------------

  datatype Action =
    | ProducerStep
    | ProducerWakes                   // for no reason
    | Step(t: Tid)
    | Wakes(t: Tid)                   // for no reason
    | BeginNext(t: Tid, toOut: bool)  // `toOut` for the adapted `Next()`, which has recycled `out_data_`
    | Recycle(t: Tid, i: nat)
    | RecycleOut(t: Tid)
    | BeginReset(t: Tid)              // `BeforeFirst`
    | BeginDestroy(t: Tid)

  predicate InNext(p: Pc) { p.NextEnter? || p.NextAsleep? || p.NextAwake? }

  predicate InReset(p: Pc) { p.ResetEnter? || p.ResetAsleep? || p.ResetAwake? }

  predicate InDestroy(p: Pc) { p.DestroyEnter? || p.Join? || p.Delete? }

  /** `BeforeFirst` may not run together with `Next` or itself, and `Destroy` with nothing. */
  predicate MayReset(s: State) {
    forall u | 0 <= u < |s.threads| :: !InNext(s.threads[u]) && !InReset(s.threads[u]) && !InDestroy(s.threads[u])
  }

  predicate MayTake(s: State) {
    forall u | 0 <= u < |s.threads| :: !InReset(s.threads[u]) && !InDestroy(s.threads[u])
  }

  /** The adapted `Next()` runs by itself, and has given `out_data_` back. */
  predicate MayTakeOut(s: State) {
    s.out.None? && forall u | 0 <= u < |s.threads| :: InNext(s.threads[u]) ==> !s.threads[u].toOut
  }

  predicate AllIdle(s: State) { forall u | 0 <= u < |s.threads| :: s.threads[u].Idle? }

  predicate NoDestroy(s: State) { forall u | 0 <= u < |s.threads| :: !InDestroy(s.threads[u]) }

  predicate Enabled(s: State, a: Action) {
    match a
    case ProducerStep => !s.producer.Exited? && !s.producer.Asleep?
    case ProducerWakes => s.producer.Asleep?
    case Step(t) => t < |s.threads| && !s.threads[t].Idle?
    case Wakes(t) => t < |s.threads| && (s.threads[t].NextAsleep? || s.threads[t].ResetAsleep?)
    case BeginNext(t, toOut) =>
      && t < |s.threads| && s.threads[t].Idle? && MayTake(s) && !s.signal.Destroy?
      && (toOut ==> MayTakeOut(s))
    case Recycle(t, i) => t < |s.threads| && s.threads[t].Idle? && i < |s.held| && NoDestroy(s)
    case RecycleOut(t) => t < |s.threads| && s.threads[t].Idle? && s.out.Some? && NoDestroy(s)
    case BeginReset(t) => t < |s.threads| && s.threads[t].Idle? && MayReset(s)
    case BeginDestroy(t) => t < |s.threads| && AllIdle(s)
  }

  function Apply(s: State, a: Action): State
    requires Enabled(s, a)
  {
    match a
    case ProducerStep => Produces(s)
    case ProducerWakes => s.To(Awake)
    case Step(t) => Consumes(s, t)
    case Wakes(t) => s.Go(t, WokenConsumer(s.threads[t]))
    case BeginNext(t, toOut) => s.Go(t, NextEnter(toOut))
    case Recycle(t, i) => GiveBack(s.(held := s.held[..i] + s.held[i + 1..]), t, s.held[i])
    case RecycleOut(t) => GiveBack(s.(out := None), t, s.out.value)
    case BeginReset(t) => s.Go(t, ResetEnter)
    case BeginDestroy(t) => s.Go(t, DestroyEnter)
  }

  predicate Init(s: State) {
    && s.position == 0 && s.signal == Produce && !s.processed && !s.end
    && s.waitingConsumers == 0 && s.waitingProducers == 0
    && s.queue == [] && s.free == [] && s.out == None && s.held == [] && s.producer == Loop
    && s.made == 0 && s.mostHeld == 0 && s.deleted == [] && s.taken == []
    && AllIdle(s)
  }

  ghost predicate Succeeds(s: State, s': State) {
    exists a :: Enabled(s, a) && s' == Apply(s, a)
  }

  ghost predicate IsRun(run: seq<State>) {
    && run != [] && Init(run[0])
    && forall i | 0 <= i < |run| - 1 :: Succeeds(run[i], run[i + 1])
  }
}
