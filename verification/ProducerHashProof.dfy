module ProducerHashProof {
  /** Probes are short, keys unique, and every thread keeps its producer. */

  import opened Wrappers
  import opened ThreadCounting
  import opened IndexBlocks
  import opened ModArithmetic
  import opened ProducerHash

  // ---------------------------------------------------------------------------
  // Probing
  // ---------------------------------------------------------------------------

  /** Where linear probing from the `i`-th slot on finds `v`, if it does. */
  function Find(keys: seq<Option<Tid>>, hash: nat, v: Tid, i: nat): Option<nat>
    requires keys != []
    decreases |keys| - i
  {
    if i >= |keys| then None
    else match keys[Slot(|keys|, hash, i)]
         case None => None
         case Some(w) => if w == v then Some(Slot(|keys|, hash, i)) else Find(keys, hash, v, i + 1)
  }

  /** The first `i` slots that are probed have keys other than `v`. */
  predicate Passed(keys: seq<Option<Tid>>, hash: nat, v: Tid, i: nat)
    requires keys != []
  {
    forall d | 0 <= d < i :: Other(keys[Slot(|keys|, hash, d)], v)
  }

  predicate Other(key: Option<Tid>, v: Tid) { key.Some? && key.value != v }

  lemma {:induction false} FindPasses(keys: seq<Option<Tid>>, hash: nat, v: Tid, i: nat)
    requires keys != [] && Passed(keys, hash, v, i) && i <= |keys|
    ensures Find(keys, hash, v, 0) == Find(keys, hash, v, i)
  {
    if i > 0 {
      FindPasses(keys, hash, v, i - 1);
      assert Other(keys[Slot(|keys|, hash, i - 1)], v);
    }
  }

  /** What was found stays where it was when an empty slot is filled. */
  lemma {:induction false} FindStays(keys: seq<Option<Tid>>, hash: nat, v: Tid, i: nat, x: nat, w: Tid)
    requires keys != [] && x < |keys| && keys[x].None? && Find(keys, hash, v, i).Some?
    ensures Find(keys[x := Some(w)], hash, v, i) == Find(keys, hash, v, i)
    decreases |keys| - i
  {
    if keys[Slot(|keys|, hash, i)] != Some(v) { FindStays(keys, hash, v, i + 1, x, w); }
  }

  lemma PassedStays(keys: seq<Option<Tid>>, hash: nat, v: Tid, i: nat, x: nat, w: Tid)
    requires keys != [] && x < |keys| && keys[x].None? && Passed(keys, hash, v, i)
    ensures Passed(keys[x := Some(w)], hash, v, i)
  {
    forall d | 0 <= d < i ensures Other(keys[x := Some(w)][Slot(|keys|, hash, d)], v) {
      assert Other(keys[Slot(|keys|, hash, d)], v);
    }
  }

  /** A key put into the slot where probing stopped is found there. */
  lemma FindsAdded(keys: seq<Option<Tid>>, hash: nat, v: Tid, i: nat)
    requires keys != [] && i < |keys| && Passed(keys, hash, v, i) && keys[Slot(|keys|, hash, i)].None?
    ensures var x := Slot(|keys|, hash, i); Find(keys[x := Some(v)], hash, v, 0) == Some(x)
  {
    var x := Slot(|keys|, hash, i);
    PassedStays(keys, hash, v, i, x, v);
    FindPasses(keys[x := Some(v)], hash, v, i);
  }

  // ---------------------------------------------------------------------------
  // Counting threads
  // ---------------------------------------------------------------------------

  predicate Counts(stamps: seq<Option<nat>>, v: Tid, n: nat) { v < |stamps| && stamps[v].Some? && stamps[v].value <= n }

  /** The counted threads whose `newCount` is at most `n`. */
  function CountedTo(stamps: seq<Option<nat>>, n: nat): set<Tid> {
    set v: Tid | 0 <= v < |stamps| && Counts(stamps, v, n)
  }

  function Counted(stamps: seq<Option<nat>>): set<Tid> { set v: Tid | 0 <= v < |stamps| && stamps[v].Some? }

  /** Decrements make room for repeated values, but never for more than `n` up to `n`. */
  ghost predicate StampsOk(stamps: seq<Option<nat>>, count: int) {
    |Counted(stamps)| == count && forall n: nat :: |CountedTo(stamps, n)| <= n
  }

  lemma StampAdded(stamps: seq<Option<nat>>, count: int, t: Tid)
    requires StampsOk(stamps, count) && t < |stamps| && stamps[t].None?
    ensures count >= 0 && StampsOk(stamps[t := Some(count + 1)], count + 1)
  {
    var stamps' := stamps[t := Some(count + 1)];
    assert Counted(stamps') == Counted(stamps) + {t};
    forall n: nat ensures |CountedTo(stamps', n)| <= n {
      if n >= count + 1 {
        assert CountedTo(stamps', n) <= Counted(stamps');
        SubsetSize(CountedTo(stamps', n), Counted(stamps'));
      } else {
        assert CountedTo(stamps', n) == CountedTo(stamps, n);
      }
    }
  }

  lemma StampDropped(stamps: seq<Option<nat>>, count: int, t: Tid)
    requires StampsOk(stamps, count) && t < |stamps| && stamps[t].Some?
    ensures StampsOk(stamps[t := None], count - 1)
  {
    var stamps' := stamps[t := None];
    assert Counted(stamps') == Counted(stamps) - {t};
    forall n: nat ensures |CountedTo(stamps', n)| <= n {
      assert CountedTo(stamps', n) <= CountedTo(stamps, n);
      SubsetSize(CountedTo(stamps', n), CountedTo(stamps, n));
    }
  }

  // ---------------------------------------------------------------------------
  // Tables
  // ---------------------------------------------------------------------------

  /** A key is found by probing, and its thread was counted when there was room. */
  predicate KeyOk(keys: seq<Option<Tid>>, hashes: seq<nat>, stamps: seq<Option<nat>>, x: nat)
    requires x < |keys|
  {
    keys[x].Some? ==>
      var v := keys[x].value;
      && v < |hashes| && v < |stamps| && stamps[v].Some? && stamps[v].value < Room(|keys|)
      && Find(keys, hashes[v], v, 0) == Some(x)
  }

  predicate TableOk(table: Table, hashes: seq<nat>, stamps: seq<Option<nat>>) {
    && table.keys != [] && |table.values| == |table.keys|
    && forall x | 0 <= x < |table.keys| :: KeyOk(table.keys, hashes, stamps, x)
  }

  function KeysTo(keys: seq<Option<Tid>>, n: nat): set<Tid>
    requires n <= |keys|
  {
    set x | 0 <= x < n && keys[x].Some? :: keys[x].value
  }

  function KeySet(table: Table): set<Tid> { KeysTo(table.keys, |table.keys|) }

  /** A table that is not empty has fewer keys than its room. */
  lemma FewKeys(table: Table, hashes: seq<nat>, stamps: seq<Option<nat>>)
    requires TableOk(table, hashes, stamps) && forall n: nat :: |CountedTo(stamps, n)| <= n
    ensures KeySet(table) == {} || |KeySet(table)| < Room(table.Capacity())
  {
    var keys := table.keys;
    if KeySet(table) != {} {
      var v :| v in KeySet(table);
      var y :| 0 <= y < |keys| && keys[y] == Some(v);
      var n := Room(|keys|);
      assert KeyOk(keys, hashes, stamps, y);
      forall w | w in KeySet(table) ensures w in CountedTo(stamps, n - 1) {
        var x :| 0 <= x < |keys| && keys[x] == Some(w);
        assert KeyOk(keys, hashes, stamps, x);
        assert Counts(stamps, w, n - 1);
      }
      SubsetSize(KeySet(table), CountedTo(stamps, n - 1));
    }
  }

  /** A key stands in one slot of a table at most. */
  lemma KeyIsUnique(table: Table, hashes: seq<nat>, stamps: seq<Option<nat>>, x: nat, y: nat)
    requires TableOk(table, hashes, stamps) && x < |table.keys| && y < |table.keys|
    ensures table.keys[x].Some? && table.keys[x] == table.keys[y] ==> x == y
  {
    assert KeyOk(table.keys, hashes, stamps, x) && KeyOk(table.keys, hashes, stamps, y);
  }

  predicate AllTaken(keys: seq<Option<Tid>>) { forall x | 0 <= x < |keys| :: keys[x].Some? }

  lemma {:induction false} TakenSlots(table: Table, hashes: seq<nat>, stamps: seq<Option<nat>>, n: nat)
    requires TableOk(table, hashes, stamps) && n <= |table.keys| && AllTaken(table.keys)
    ensures |KeysTo(table.keys, n)| == n
  {
    if n > 0 {
      var keys := table.keys;
      TakenSlots(table, hashes, stamps, n - 1);
      var v := keys[n - 1].value;
      forall x | 0 <= x < n - 1 ensures keys[x] != Some(v) { KeyIsUnique(table, hashes, stamps, x, n - 1); }
      assert KeysTo(keys, n) == KeysTo(keys, n - 1) + {v};
    }
  }

  lemma SlotIsProbed(capacity: nat, hash: nat, x: nat)
    requires x < capacity
    ensures var d := (x - hash) % capacity; Slot(capacity, hash, d) == x
  {
    ModAdd(x - hash, hash, capacity);
    ModUnique(x, capacity, 0, x);
  }

  /** No probe passes as many slots as there are: a free slot or the key comes first. */
  lemma ProbesAreShort(table: Table, hashes: seq<nat>, stamps: seq<Option<nat>>, hash: nat, v: Tid, i: nat)
    requires TableOk(table, hashes, stamps) && forall n: nat :: |CountedTo(stamps, n)| <= n
    requires Passed(table.keys, hash, v, i)
    ensures i < table.Capacity()
  {
    var keys := table.keys;
    if i >= |keys| {
      forall x | 0 <= x < |keys| ensures keys[x].Some? {
        SlotIsProbed(|keys|, hash, x);
        assert Other(keys[Slot(|keys|, hash, (x - hash) % |keys|)], v);
      }
      FewKeys(table, hashes, stamps);
      TakenSlots(table, hashes, stamps, |keys|);
    }
  }

  // ---------------------------------------------------------------------------
  // The invariant
  // ---------------------------------------------------------------------------

  predicate Absent(table: Table, v: Tid) { forall x | 0 <= x < |table.keys| :: table.keys[x] != Some(v) }

  predicate AbsentFrom(tables: seq<Table>, v: Tid, j: nat) { forall k | j <= k < |tables| :: Absent(tables[k], v) }

  predicate Presents(tables: seq<Table>, v: Tid) { exists k | 0 <= k < |tables| :: !Absent(tables[k], v) }

  /** The tables are chained in the order of their numbers, and never shrink. */
  predicate Chained(tables: seq<Table>, main: nat) {
    && main == |tables| - 1
    && (forall j | 0 <= j < |tables| :: tables[j].prev == if j == 0 then None else Some(j - 1))
    && forall j, k | 0 <= j <= k < |tables| :: |tables[j].keys| <= |tables[k].keys|
  }

  predicate TablesOk(tables: seq<Table>, hashes: seq<nat>, stamps: seq<Option<nat>>) {
    forall j | 0 <= j < |tables| :: TableOk(tables[j], hashes, stamps)
  }

  predicate Writes(p: Pc, j: nat, x: nat) { p.WriteValue? && p.m == j && p.x == x }

  /** The value beside a key is the producer that was made for its thread, unless the thread has yet to write it. */
  predicate ValueOk(table: Table, j: nat, x: nat, threads: seq<Pc>, made: seq<Option<nat>>)
    requires x < |table.keys| == |table.values|
  {
    table.keys[x].Some? ==>
      var v := table.keys[x].value;
      && v < |threads| && v < |made| && made[v].Some?
      && (table.values[x] == made[v] || Writes(threads[v], j, x))
  }

  predicate ValuesOk(tables: seq<Table>, threads: seq<Pc>, made: seq<Option<nat>>) {
    && (forall j | 0 <= j < |tables| :: |tables[j].keys| == |tables[j].values|)
    && forall j, x | 0 <= j < |tables| && 0 <= x < |tables[j].keys| :: ValueOk(tables[j], j, x, threads, made)
  }

  predicate Adding(p: Pc) { p.AddProbe? || p.AddCas? || p.WriteValue? }

  predicate Locked(p: Pc) { p.LoadLocked? || p.Allocate? || p.Unlock? || p.FailCount? || p.FailUnlock? }

  predicate InTable(tables: seq<Table>, m: nat) { m < |tables| && tables[m].keys != [] }

  /** What thread `t` knows of the tables in which it looks for or adds its key. */
  predicate Probes(tables: seq<Table>, hash: nat, t: Tid, p: Pc) {
    match p
    case Search(m, j, i) =>
      && j <= m < |tables| && InTable(tables, j) && AbsentFrom(tables, t, j + 1)
      && Passed(tables[j].keys, hash, t, i) && i < |tables[j].keys|
    case AddProbe(m, _, i) => InTable(tables, m) && Absent(tables[m], t) && Passed(tables[m].keys, hash, t, i)
        && i < |tables[m].keys|
    case AddCas(m, _, i) => InTable(tables, m) && Absent(tables[m], t) && Passed(tables[m].keys, hash, t, i)
        && i < |tables[m].keys|
    case WriteValue(m, _, x) => m < |tables| && x < |tables[m].keys| && tables[m].keys[x] == Some(t)
    case AddCount(m) => m < |tables|
    case CheckSize(m, _) => m < |tables|
    case TestAndSet(m, _) => m < |tables|
    case Allocate(m, _) => m == |tables| - 1
    case Unlock(m, _) => m < |tables|
    case CheckRoom(m, _) => m < |tables|
    case CreateProducer(m, n) => m < |tables| && n < Room(|tables[m].keys|)
    case Idle => true
    case LoadMain => true
    case LoadLocked(_) => true
    case FailCount(_) => true
    case FailUnlock => true
    case DropCount(_) => true
    case LoadAgain(_) => true
  }

  /** Whether the thread is counted, and whether it has a producer. */
  predicate Standing(tables: seq<Table>, p: Pc, stamp: Option<nat>, made: Option<nat>) {
    match p
    case Idle => made.Some? == stamp.Some?
    case LoadMain => made.Some? == stamp.Some?
    case Search(_, _, _) => made.Some? == stamp.Some?
    case AddProbe(m, q, _) => made == Some(q) && Fits(tables, m, stamp)
    case AddCas(m, q, _) => made == Some(q) && Fits(tables, m, stamp)
    case WriteValue(m, q, _) => made == Some(q) && stamp.Some?
    case AddCount(_) => made.None? && stamp.None?
    case CheckSize(_, n) => made.None? && stamp == Some(n)
    case TestAndSet(_, n) => made.None? && stamp == Some(n)
    case LoadLocked(n) => made.None? && stamp == Some(n)
    case Allocate(_, n) => made.None? && stamp == Some(n)
    case Unlock(_, n) => made.None? && stamp == Some(n)
    case FailCount(n) => made.None? && stamp == Some(n)
    case FailUnlock => made.None? && stamp.None?
    case CheckRoom(_, n) => made.None? && stamp == Some(n)
    case CreateProducer(_, n) => made.None? && stamp == Some(n)
    case DropCount(n) => made.None? && stamp == Some(n)
    case LoadAgain(n) => made.None? && stamp == Some(n)
  }

  predicate Fits(tables: seq<Table>, m: nat, stamp: Option<nat>) {
    m < |tables| && stamp.Some? && stamp.value < Room(|tables[m].keys|)
  }

  predicate Owns(owners: seq<Tid>, made: Option<nat>, t: Tid) {
    made.Some? ==> made.value < |owners| && owners[made.value] == t
  }

  predicate ThreadOk(s: State, t: Tid)
    requires t < |s.threads| == |s.hashes| == |s.stamps| == |s.made|
  {
    && Probes(s.tables, s.hashes[t], t, s.threads[t])
    && Standing(s.tables, s.threads[t], s.stamps[t], s.made[t])
    && (Locked(s.threads[t]) <==> s.lock == Some(t))
    && (s.made[t].None? ==> AbsentFrom(s.tables, t, 0))
    && (s.made[t].Some? && !Adding(s.threads[t]) ==> Presents(s.tables, t))
    && Owns(s.owners, s.made[t], t)
  }

  /** Every producer that was returned is the one made for the thread. */
  predicate AnswerOk(a: Answer, made: seq<Option<nat>>) {
    a.producer.Some? ==> a.t < |made| && made[a.t] == a.producer
  }

  ghost predicate Inv(s: State) {
    && |s.hashes| == |s.threads| && |s.stamps| == |s.threads| && |s.made| == |s.threads|
    && Chained(s.tables, s.main) && TablesOk(s.tables, s.hashes, s.stamps) && ValuesOk(s.tables, s.threads, s.made)
    && StampsOk(s.stamps, s.count)
    && (forall t | 0 <= t < |s.threads| :: ThreadOk(s, t))
    && (s.lock.Some? ==> s.lock.value < |s.threads|)
    && forall i | 0 <= i < |s.answers| :: AnswerOk(s.answers[i], s.made)
  }
}
