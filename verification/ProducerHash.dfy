module ProducerHash {
  /**
   The hash in which a thread finds its implicit producer: tables with linear probing,
   chained from the newest to the oldest, that are replaced by larger ones under a lock
   while other threads go on inserting, and into the newest of which found keys are
   copied lazily.

   A thread's number is its id, and `hashes` are the hashed ids. Every load, store and
   read-modify-write is a step of its own; allocations may fail.
   */

  import opened Wrappers
  import opened ThreadCounting
  import opened IndexBlocks

  /** `prev` is the next older table. */
  datatype Table = Table(keys: seq<Option<Tid>>, values: seq<Option<nat>>, prev: Option<nat>)
  {
    function Capacity(): nat { |keys| }
  }

  datatype Pc =
    | Idle
    | LoadMain
    | Search(m: nat, j: nat, i: nat)       // looking into table `j`, `m` was the newest
    | AddProbe(m: nat, p: nat, i: nat)     // adding the own key with value `p` to table `m`
    | AddCas(m: nat, p: nat, i: nat)
    | WriteValue(m: nat, p: nat, x: nat)
    | AddCount(m: nat)
    | CheckSize(m: nat, n: nat)
    | TestAndSet(m: nat, n: nat)
    | LoadLocked(n: nat)
    | Allocate(m: nat, n: nat)
    | Unlock(m: nat, n: nat)
    | FailCount(n: nat)
    | FailUnlock
    | CheckRoom(m: nat, n: nat)
    | CreateProducer(m: nat, n: nat)
    | DropCount(n: nat)
    | LoadAgain(n: nat)

  /** What a call returned to thread `t`: a producer, or null. */
  datatype Answer = Answer(t: Tid, producer: Option<nat>)

  /**
   The program stores the tables, `main`, `count` and whether the lock is held. `stamps`
   are the values of `newCount` of the threads that are counted, `owners[p]` is the
   thread that had producer `p` made for it, and `made` that producer.
   */
  datatype State = State(
    tables: seq<Table>, main: nat, count: int, lock: Option<Tid>, hashes: seq<nat>, threads: seq<Pc>,
    stamps: seq<Option<nat>>, made: seq<Option<nat>>, owners: seq<Tid>, answers: seq<Answer>)
  {
    function Go(t: Tid, p: Pc): State
      requires t < |threads|
    {
      this.(threads := threads[t := p])
    }

    function Return(t: Tid, p: Option<nat>): State
      requires t < |threads|
    {
      this.(answers := answers + [Answer(t, p)]).Go(t, Idle)
    }
  }

  datatype Action = Begin(t: Tid) | Step(t: Tid) | Fail(t: Tid)

  /** A table is used below three quarters of its capacity. */
  function Room(capacity: nat): nat { capacity / 2 + capacity / 4 }

  /** The first doubling of `c` of which the count `n` is less than half. */
  function Doubled(c: nat, n: nat): (d: nat)
    requires c > 0
    ensures d >= c && n < d / 2
    decreases if 2 * n + 2 > c then 2 * n + 2 - c else 0
  {
    if n >= c / 2 then Doubled(2 * c, n) else c
  }

  /** The `i`-th slot that is probed for a hashed id. */
  function Slot(capacity: nat, hash: nat, i: nat): (x: nat)
    requires capacity > 0
    ensures x < capacity
  {
    (hash + i) % capacity
  }

  function EmptyTable(capacity: nat, prev: Option<nat>): Table {
    Table(seq(capacity, i => None), seq(capacity, i => None), prev)
  }

  // Table and thread numbers are always in range, and capacities positive; see `Inv`.

  const NoTable := Table([None], [None], None)

  function TableAt(s: State, m: nat): Table { Nth(s.tables, m, NoTable) }

  function ProbeSlot(s: State, m: nat, t: Tid, i: nat): nat {
    if TableAt(s, m).keys == [] then 0 else Slot(TableAt(s, m).Capacity(), Nth(s.hashes, t, 0), i)
  }

  function KeyAt(s: State, m: nat, x: nat): Option<Tid> { Nth(TableAt(s, m).keys, x, None) }

  function WithKey(s: State, m: nat, x: nat, t: Tid): State {
    var table := TableAt(s, m);
    s.(tables := Upd(s.tables, m, table.(keys := Upd(table.keys, x, Some(t)))))
  }

  function WithValue(s: State, m: nat, x: nat, p: nat): State {
    var table := TableAt(s, m);
    s.(tables := Upd(s.tables, m, table.(values := Upd(table.values, x, Some(p)))))
  }

  predicate Enabled(s: State, a: Action) {
    match a
    case Begin(t) => t < |s.threads| && s.threads[t].Idle?
    case Step(t) => t < |s.threads| && !s.threads[t].Idle?
    case Fail(t) => t < |s.threads| && (s.threads[t].Allocate? || s.threads[t].CreateProducer?)
  }

  function Apply(s: State, a: Action): State
    requires Enabled(s, a)
  {
    match a
    case Begin(t) => s.Go(t, LoadMain)
    case Step(t) => Atomic(s, t)
    case Fail(t) =>
      match s.threads[t]
      case Allocate(_, n) => s.Go(t, FailCount(n))
      case CreateProducer(_, n) => s.Go(t, DropCount(n))
  }

  /** Looking for the own id in the current table, the older ones, and last of all nowhere. */
  function SearchStep(s: State, t: Tid, m: nat, j: nat, i: nat): State
    requires t < |s.threads|
  {
    var x := ProbeSlot(s, j, t, i);
    match KeyAt(s, j, x)
    case None =>
      (match TableAt(s, j).prev
       case None => s.Go(t, AddCount(m))
       case Some(k) => s.Go(t, Search(m, k, 0)))
    case Some(v) =>
      if v != t then s.Go(t, Search(m, j, i + 1))
      else
        match Nth(TableAt(s, j).values, x, None)
        case None => s.Return(t, None)
        case Some(p) => if j != m then s.Go(t, AddProbe(m, p, 0)) else s.Return(t, Some(p))
  }

  function Atomic(s: State, t: Tid): State
    requires t < |s.threads| && !s.threads[t].Idle?
  {
    match s.threads[t]
    case LoadMain => s.Go(t, Search(s.main, s.main, 0))
    case Search(m, j, i) => SearchStep(s, t, m, j, i)
    case AddProbe(m, p, i) =>
      s.Go(t, if KeyAt(s, m, ProbeSlot(s, m, t, i)).None? then AddCas(m, p, i) else AddProbe(m, p, i + 1))
    case AddCas(m, p, i) =>
      var x := ProbeSlot(s, m, t, i);
      if KeyAt(s, m, x).None? then WithKey(s, m, x, t).Go(t, WriteValue(m, p, x))
      else s.Go(t, AddProbe(m, p, i + 1))
    case WriteValue(m, p, x) => WithValue(s, m, x, p).Return(t, Some(p))
    case AddCount(m) =>
      s.(count := s.count + 1, stamps := Upd(s.stamps, t, Some(if s.count >= 0 then s.count + 1 else 0)))
      .Go(t, CheckSize(m, if s.count >= 0 then s.count + 1 else 0))
    case CheckSize(m, n) =>
      s.Go(t, if n >= TableAt(s, m).Capacity() / 2 then TestAndSet(m, n) else CheckRoom(m, n))
    case TestAndSet(m, n) =>
      if s.lock.None? then s.(lock := Some(t)).Go(t, LoadLocked(n)) else s.Go(t, CheckRoom(m, n))
    case LoadLocked(n) =>
      s.Go(t, if n >= TableAt(s, s.main).Capacity() / 2 then Allocate(s.main, n) else Unlock(s.main, n))
    case Allocate(m, n) =>
      var capacity := TableAt(s, m).Capacity();
      if capacity == 0 then s
      else
        s.(tables := s.tables + [EmptyTable(Doubled(2 * capacity, n), Some(m))], main := |s.tables|)
        .Go(t, Unlock(|s.tables|, n))
    case Unlock(m, n) => s.(lock := None).Go(t, CheckRoom(m, n))
    case FailCount(n) => s.(count := s.count - 1, stamps := Upd(s.stamps, t, None)).Go(t, FailUnlock)
    case FailUnlock => s.(lock := None).Return(t, None)
    case CheckRoom(m, n) =>
      s.Go(t, if n < Room(TableAt(s, m).Capacity()) then CreateProducer(m, n) else LoadAgain(n))
    case CreateProducer(m, n) =>
      s.(owners := s.owners + [t], made := Upd(s.made, t, Some(|s.owners|))).Go(t, AddProbe(m, |s.owners|, 0))
    case DropCount(n) => s.(count := s.count - 1, stamps := Upd(s.stamps, t, None)).Return(t, None)
    case LoadAgain(n) => s.Go(t, CheckSize(s.main, n))
  }

  /** One empty table, whose size the traits choose. */
  predicate Init(s: State) {
    && |s.tables| == 1 && s.tables[0].Capacity() > 0 && s.tables[0] == EmptyTable(s.tables[0].Capacity(), None)
    && s.main == 0 && s.count == 0 && s.lock == None && s.owners == [] && s.answers == []
    && |s.hashes| == |s.threads| && |s.stamps| == |s.threads| && |s.made| == |s.threads|
    && forall t | 0 <= t < |s.threads| :: s.threads[t].Idle? && s.stamps[t].None? && s.made[t].None?
  }

  ghost predicate Succeeds(s: State, s': State) {
    exists a :: Enabled(s, a) && s' == Apply(s, a)
  }

  ghost predicate IsRun(run: seq<State>) {
    && run != [] && Init(run[0])
    && forall i | 0 <= i < |run| - 1 :: Succeeds(run[i], run[i + 1])
  }
}
