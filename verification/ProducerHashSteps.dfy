/**
 Every step keeps the invariant of the producer hash: searching the chain of tables,
 copying a key into the newest, counting, allocating a larger table under the lock,
 creating a producer and inserting it.
 */
module ProducerHashSteps {
  import opened Wrappers
  import opened ThreadCounting
  import opened IndexBlocks
  import opened ProducerHash
  import opened ProducerHashProof

  // ---------------------------------------------------------------------------
  // Steps of one thread that change nothing shared
  // ---------------------------------------------------------------------------

  lemma ThreadIsOk(s: State, t: Tid)
    requires Inv(s) && t < |s.threads|
    ensures ThreadOk(s, t)
  {
  }

  lemma TableIsOk(s: State, j: nat)
    requires Inv(s) && j < |s.tables|
    ensures TableOk(s.tables[j], s.hashes, s.stamps) && InTable(s.tables, j) && s.main == |s.tables| - 1
  {
  }

  /** What is known of a thread does not depend on the others. */
  lemma SameForThread(s: State, s': State, u: Tid)
    requires u < |s.threads| == |s.hashes| == |s.stamps| == |s.made| && ThreadOk(s, u)
    requires u < |s'.threads| == |s'.hashes| == |s'.stamps| == |s'.made|
    requires s'.tables == s.tables && s'.hashes == s.hashes && s'.owners == s.owners
    requires s'.threads[u] == s.threads[u] && s'.stamps[u] == s.stamps[u] && s'.made[u] == s.made[u]
    requires (s'.lock == Some(u)) == (s.lock == Some(u))
    ensures ThreadOk(s', u)
  {
  }

  lemma QuietKeeps(s: State, t: Tid, p: Pc, lock: Option<Tid>, answers: seq<Answer>)
    requires Inv(s) && t < |s.threads| && !s.threads[t].WriteValue?
    requires s.lock.None? || s.lock == Some(t) || lock == s.lock
    requires lock.None? || lock == Some(t) || lock == s.lock
    requires ThreadOk(s.(lock := lock, answers := answers).Go(t, p), t)
    requires answers == s.answers || exists a :: answers == s.answers + [a] && AnswerOk(a, s.made)
    ensures Inv(s.(lock := lock, answers := answers).Go(t, p))
  {
    hide ThreadOk, TablesOk, Chained, StampsOk, AnswerOk, ValuesOk;
    var s' := s.(lock := lock, answers := answers).Go(t, p);
    forall u | 0 <= u < |s'.threads| ensures ThreadOk(s', u) {
      if u != t { SameForThread(s, s', u); }
    }
    ValuesStay(s, t, p);
  }

  lemma ValuesStay(s: State, t: Tid, p: Pc)
    requires t < |s.threads| && !s.threads[t].WriteValue? && ValuesOk(s.tables, s.threads, s.made)
    ensures ValuesOk(s.tables, s.threads[t := p], s.made)
  {
    var threads' := s.threads[t := p];
    forall j, x | 0 <= j < |s.tables| && 0 <= x < |s.tables[j].keys|
      ensures ValueOk(s.tables[j], j, x, threads', s.made)
    {
      assert ValueOk(s.tables[j], j, x, s.threads, s.made);
    }
  }

  lemma LoadMainKeeps(s: State, t: Tid)
    requires Inv(s) && t < |s.threads| && s.threads[t].LoadMain?
    ensures Inv(Atomic(s, t))
  {
    ThreadIsOk(s, t);
    TableIsOk(s, s.main);
    QuietKeeps(s, t, Search(s.main, s.main, 0), s.lock, s.answers);
  }

  /** A search that comes to an empty slot has shown that the key is not in the table. */
  lemma NotInTable(table: Table, hashes: seq<nat>, stamps: seq<Option<nat>>, t: Tid, i: nat)
    requires TableOk(table, hashes, stamps) && t < |hashes| && i < |table.keys|
    requires Passed(table.keys, hashes[t], t, i) && table.keys[Slot(|table.keys|, hashes[t], i)].None?
    ensures Absent(table, t)
  {
    FindPasses(table.keys, hashes[t], t, i);
    forall x | 0 <= x < |table.keys| ensures table.keys[x] != Some(t) {
      assert KeyOk(table.keys, hashes, stamps, x);
    }
  }

  /** One more slot passed, and still not all of them. */
  lemma PassesOne(s: State, m: nat, t: Tid, i: nat)
    requires Inv(s) && t < |s.threads| && m < |s.tables| && i < |s.tables[m].keys|
    requires Passed(s.tables[m].keys, s.hashes[t], t, i)
    requires Other(s.tables[m].keys[Slot(|s.tables[m].keys|, s.hashes[t], i)], t)
    ensures Passed(s.tables[m].keys, s.hashes[t], t, i + 1) && i + 1 < |s.tables[m].keys|
  {
    TableIsOk(s, m);
    ProbesAreShort(s.tables[m], s.hashes, s.stamps, s.hashes[t], t, i + 1);
  }

  lemma SearchEndsKeeps(s: State, t: Tid, m: nat, j: nat, i: nat)
    requires Inv(s) && t < |s.threads| && s.threads[t] == Search(m, j, i) && KeyAt(s, j, ProbeSlot(s, j, t, i)).None?
    ensures Inv(SearchStep(s, t, m, j, i))
  {
    ThreadIsOk(s, t);
    TableIsOk(s, j);
    NotInTable(s.tables[j], s.hashes, s.stamps, t, i);
    if j > 0 { TableIsOk(s, j - 1); }
    var p := if j == 0 then AddCount(m) else Search(m, j - 1, 0);
    assert s.tables[j].prev == if j == 0 then None else Some(j - 1);
    QuietKeeps(s, t, p, s.lock, s.answers);
  }

  /** The value beside the own key is the thread's producer. */
  lemma FoundValue(s: State, t: Tid, j: nat, x: nat)
    requires Inv(s) && t < |s.threads| && j < |s.tables| && x < |s.tables[j].keys| && s.tables[j].keys[x] == Some(t)
    requires !s.threads[t].WriteValue?
    ensures x < |s.tables[j].values| && s.made[t].Some? && s.tables[j].values[x] == s.made[t]
    ensures s.stamps[t].Some? && s.stamps[t].value < Room(|s.tables[j].keys|)
  {
    TableIsOk(s, j);
    assert KeyOk(s.tables[j].keys, s.hashes, s.stamps, x);
    assert ValueOk(s.tables[j], j, x, s.threads, s.made);
  }

  lemma RoomGrows(a: nat, b: nat)
    requires a <= b
    ensures Room(a) <= Room(b)
  {
  }

  lemma SearchFindsKeeps(s: State, t: Tid, m: nat, j: nat, i: nat)
    requires Inv(s) && t < |s.threads| && s.threads[t] == Search(m, j, i)
    requires KeyAt(s, j, ProbeSlot(s, j, t, i)) == Some(t)
    ensures Inv(SearchStep(s, t, m, j, i))
  {
    ThreadIsOk(s, t);
    TableIsOk(s, j);
    TableIsOk(s, m);
    var x := ProbeSlot(s, j, t, i);
    FoundValue(s, t, j, x);
    var p := s.made[t].value;
    if j != m {
      RoomGrows(|s.tables[j].keys|, |s.tables[m].keys|);
      QuietKeeps(s, t, AddProbe(m, p, 0), s.lock, s.answers);
    } else {
      assert !Absent(s.tables[j], t);
      assert AnswerOk(Answer(t, Some(p)), s.made);
      QuietKeeps(s, t, Idle, s.lock, s.answers + [Answer(t, Some(p))]);
    }
  }

  lemma SearchKeeps(s: State, t: Tid)
    requires Inv(s) && t < |s.threads| && s.threads[t].Search?
    ensures Inv(Atomic(s, t))
  {
    var Search(m, j, i) := s.threads[t];
    ThreadIsOk(s, t);
    var key := KeyAt(s, j, ProbeSlot(s, j, t, i));
    if key.None? {
      SearchEndsKeeps(s, t, m, j, i);
    } else if key == Some(t) {
      SearchFindsKeeps(s, t, m, j, i);
    } else {
      PassesOne(s, j, t, i);
      QuietKeeps(s, t, Search(m, j, i + 1), s.lock, s.answers);
    }
  }

  lemma AddProbeKeeps(s: State, t: Tid)
    requires Inv(s) && t < |s.threads| && s.threads[t].AddProbe?
    ensures Inv(Atomic(s, t))
  {
    var AddProbe(m, p, i) := s.threads[t];
    ThreadIsOk(s, t);
    if KeyAt(s, m, ProbeSlot(s, m, t, i)).None? {
      QuietKeeps(s, t, AddCas(m, p, i), s.lock, s.answers);
    } else {
      assert s.tables[m].keys[Slot(|s.tables[m].keys|, s.hashes[t], i)] != Some(t);
      PassesOne(s, m, t, i);
      QuietKeeps(s, t, AddProbe(m, p, i + 1), s.lock, s.answers);
    }
  }

  lemma AddCasFailsKeeps(s: State, t: Tid)
    requires Inv(s) && t < |s.threads| && s.threads[t].AddCas?
    requires KeyAt(s, s.threads[t].m, ProbeSlot(s, s.threads[t].m, t, s.threads[t].i)).Some?
    ensures Inv(Atomic(s, t))
  {
    var AddCas(m, p, i) := s.threads[t];
    ThreadIsOk(s, t);
    assert s.tables[m].keys[Slot(|s.tables[m].keys|, s.hashes[t], i)] != Some(t);
    PassesOne(s, m, t, i);
    QuietKeeps(s, t, AddProbe(m, p, i + 1), s.lock, s.answers);
  }

  // ---------------------------------------------------------------------------
  // Steps on a table
  // ---------------------------------------------------------------------------

  /** Filling an empty slot with the own key, where the own probing stopped. */
  lemma KeyAdded(table: Table, hashes: seq<nat>, stamps: seq<Option<nat>>, t: Tid, i: nat)
    requires TableOk(table, hashes, stamps) && t < |hashes| && i < |table.keys|
    requires Passed(table.keys, hashes[t], t, i) && table.keys[Slot(|table.keys|, hashes[t], i)].None?
    requires t < |stamps| && stamps[t].Some? && stamps[t].value < Room(|table.keys|)
    ensures TableOk(table.(keys := table.keys[Slot(|table.keys|, hashes[t], i) := Some(t)]), hashes, stamps)
  {
    hide Slot, Find;
    var keys, x := table.keys, Slot(|table.keys|, hashes[t], i);
    var keys' := keys[x := Some(t)];
    forall y | 0 <= y < |keys'| ensures KeyOk(keys', hashes, stamps, y) {
      assert KeyOk(keys, hashes, stamps, y);
      if y == x {
        FindsAdded(keys, hashes[t], t, i);
      } else if keys[y].Some? {
        FindStays(keys, hashes[keys[y].value], keys[y].value, 0, x, t);
      }
    }
  }

  /** The table `m` with key `t` in the empty slot `x`. */
  function Filled(tables: seq<Table>, m: nat, x: nat, t: Tid): seq<Table>
    requires m < |tables| && x < |tables[m].keys|
  {
    tables[m := tables[m].(keys := tables[m].keys[x := Some(t)])]
  }

  lemma FilledForOthers(tables: seq<Table>, m: nat, x: nat, t: Tid, u: Tid, hash: nat, p: Pc)
    requires m < |tables| && x < |tables[m].keys| && tables[m].keys[x].None? && u != t
    requires Probes(tables, hash, u, p)
    ensures Probes(Filled(tables, m, x, t), hash, u, p)
  {
    var tables' := Filled(tables, m, x, t);
    forall k | 0 <= k < |tables| && Absent(tables[k], u) ensures Absent(tables'[k], u) { }
    forall k, i: nat | 0 <= k < |tables| && tables[k].keys != [] && Passed(tables[k].keys, hash, u, i)
      ensures Passed(tables'[k].keys, hash, u, i)
    {
      if k == m { PassedStays(tables[m].keys, hash, u, i, x, t); }
    }
  }

  lemma FilledThread(s: State, s': State, m: nat, x: nat, t: Tid, u: Tid)
    requires u < |s.threads| == |s.hashes| == |s.stamps| == |s.made| && ThreadOk(s, u) && u != t
    requires m < |s.tables| && x < |s.tables[m].keys| && s.tables[m].keys[x].None?
    requires s'.(threads := s.threads, tables := s.tables) == s && s'.tables == Filled(s.tables, m, x, t)
    requires |s'.threads| == |s.threads| && s'.threads[u] == s.threads[u]
    ensures ThreadOk(s', u)
  {
    FilledForOthers(s.tables, m, x, t, u, s.hashes[u], s.threads[u]);
    hide Probes;
    forall k | 0 <= k < |s.tables| ensures Absent(s'.tables[k], u) == Absent(s.tables[k], u) {
      AbsentStays(s.tables[m], x, t, u);
    }
    assert AbsentFrom(s'.tables, u, 0) == AbsentFrom(s.tables, u, 0);
    hide Absent;
    assert Presents(s.tables, u) ==> Presents(s'.tables, u) by {
      if Presents(s.tables, u) {
        var k :| 0 <= k < |s.tables| && !Absent(s.tables[k], u);
        assert !Absent(s'.tables[k], u);
      }
    }
  }

  lemma AbsentStays(table: Table, x: nat, t: Tid, u: Tid)
    requires x < |table.keys| && table.keys[x].None? && u != t
    ensures Absent(table.(keys := table.keys[x := Some(t)]), u) == Absent(table, u)
  {
    var table' := table.(keys := table.keys[x := Some(t)]);
    forall y | 0 <= y < |table.keys| ensures (table'.keys[y] != Some(u)) == (table.keys[y] != Some(u)) { }
  }

  lemma FilledTables(s: State, t: Tid, m: nat, i: nat)
    requires Inv(s) && t < |s.threads| && m < |s.tables| && i < |s.tables[m].keys|
    requires Passed(s.tables[m].keys, s.hashes[t], t, i)
    requires s.stamps[t].Some? && s.stamps[t].value < Room(|s.tables[m].keys|)
    requires s.tables[m].keys[Slot(|s.tables[m].keys|, s.hashes[t], i)].None?
    ensures var tables' := Filled(s.tables, m, Slot(|s.tables[m].keys|, s.hashes[t], i), t);
            TablesOk(tables', s.hashes, s.stamps) && Chained(tables', s.main)
  {
    hide ValuesOk, ThreadOk, StampsOk;
    TableIsOk(s, m);
    KeyAdded(s.tables[m], s.hashes, s.stamps, t, i);
    hide TableOk, Passed, Slot;
  }

  lemma AddCasKeeps(s: State, t: Tid)
    requires Inv(s) && t < |s.threads| && s.threads[t].AddCas?
    requires KeyAt(s, s.threads[t].m, ProbeSlot(s, s.threads[t].m, t, s.threads[t].i)).None?
    ensures Inv(Atomic(s, t))
  {
    var AddCas(m, p, i) := s.threads[t];
    var s' := Atomic(s, t);
    ThreadIsOk(s, t);
    var x := Slot(|s.tables[m].keys|, s.hashes[t], i);
    FilledTables(s, t, m, i);
    assert s'.tables == Filled(s.tables, m, x, t);
    FilledValues(s, t, m, x);
    hide TablesOk, Chained, StampsOk, AnswerOk, ValuesOk;
    forall u | 0 <= u < |s'.threads| ensures ThreadOk(s', u) {
      ThreadIsOk(s, u);
      if u != t { FilledThread(s, s', m, x, t, u); }
    }
  }

  lemma FilledValues(s: State, t: Tid, m: nat, x: nat)
    requires Inv(s) && t < |s.threads| && s.threads[t].AddCas? && s.threads[t].m == m && m < |s.tables|
    requires x < |s.tables[m].keys| && s.tables[m].keys[x].None? && s.made[t].Some?
    ensures ValuesOk(Filled(s.tables, m, x, t), s.threads[t := WriteValue(m, s.threads[t].p, x)], s.made)
  {
    hide ThreadOk, TablesOk, Chained, StampsOk, AnswerOk;
    var tables', threads' := Filled(s.tables, m, x, t), s.threads[t := WriteValue(m, s.threads[t].p, x)];
    forall j, y | 0 <= j < |tables'| && 0 <= y < |tables'[j].keys| ensures ValueOk(tables'[j], j, y, threads', s.made) {
      assert ValueOk(s.tables[j], j, y, s.threads, s.made);
    }
  }

  lemma ValueWritten(s: State, t: Tid)
    requires Inv(s) && t < |s.threads| && s.threads[t].WriteValue?
    ensures ValuesOk(Atomic(s, t).tables, Atomic(s, t).threads, s.made)
  {
    hide TablesOk, Chained, StampsOk, AnswerOk;
    var s' := Atomic(s, t);
    var WriteValue(m, p, x) := s.threads[t];
    ThreadIsOk(s, t);
    forall j, y | 0 <= j < |s'.tables| && 0 <= y < |s'.tables[j].keys|
      ensures ValueOk(s'.tables[j], j, y, s'.threads, s.made)
    {
      assert ValueOk(s.tables[j], j, y, s.threads, s.made);
      if j == m && y != x { KeyIsUnique(s.tables[m], s.hashes, s.stamps, x, y) by { TableIsOk(s, m); } }
    }
  }

  lemma WriteValueTables(s: State, t: Tid)
    requires Inv(s) && t < |s.threads| && s.threads[t].WriteValue?
    ensures var s' := Atomic(s, t);
            && TablesOk(s'.tables, s.hashes, s.stamps) && Chained(s'.tables, s.main) && |s'.tables| == |s.tables|
            && forall k | 0 <= k < |s.tables| :: s'.tables[k].keys == s.tables[k].keys
  {
    hide ValuesOk, StampsOk, AnswerOk;
    ThreadIsOk(s, t);
    hide KeyOk;
  }

  /** Values play no part in probing. */
  lemma SameKeys(tables: seq<Table>, tables': seq<Table>, u: Tid)
    requires |tables'| == |tables| && forall k | 0 <= k < |tables| :: tables'[k].keys == tables[k].keys
    ensures Presents(tables', u) == Presents(tables, u)
    ensures forall j: nat :: AbsentFrom(tables', u, j) == AbsentFrom(tables, u, j)
  {
    assert forall k | 0 <= k < |tables| :: Absent(tables'[k], u) == Absent(tables[k], u);
  }

  lemma SameProbes(tables: seq<Table>, tables': seq<Table>, u: Tid, hash: nat, p: Pc)
    requires |tables'| == |tables| && forall k | 0 <= k < |tables| :: tables'[k].keys == tables[k].keys
    ensures Probes(tables', hash, u, p) == Probes(tables, hash, u, p)
  {
    hide Passed;
    SameKeys(tables, tables', u);
    assert forall k | 0 <= k < |tables| :: Absent(tables'[k], u) == Absent(tables[k], u);
    hide AbsentFrom, Absent;
  }

  lemma WriteValueKeeps(s: State, t: Tid)
    requires Inv(s) && t < |s.threads| && s.threads[t].WriteValue?
    ensures Inv(Atomic(s, t))
  {
    var s' := Atomic(s, t);
    var WriteValue(m, p, x) := s.threads[t];
    ThreadIsOk(s, t);
    ValueWritten(s, t);
    WriteValueTables(s, t);
    assert !Absent(s'.tables[m], t);
    assert AnswerOk(Answer(t, Some(p)), s.made);
    hide TablesOk, Chained, StampsOk, AnswerOk, ValuesOk, Absent, Probes;
    forall u | 0 <= u < |s'.threads| ensures ThreadOk(s', u) {
      ThreadIsOk(s, u);
      SameKeys(s.tables, s'.tables, u);
      if u != t {
        SameProbes(s.tables, s'.tables, u, s.hashes[u], s.threads[u]);
      } else {
        IdleProbes(s'.tables, s.hashes[t], t);
      }
    }
  }

  lemma IdleProbes(tables: seq<Table>, hash: nat, t: Tid)
    ensures Probes(tables, hash, t, Idle)
  {
  }

  // ---------------------------------------------------------------------------
  // Steps on the count, the lock and the chain
  // ---------------------------------------------------------------------------

  /** A thread that is in no table may change whether and how it is counted. */
  lemma StampIrrelevant(s: State, t: Tid, stamp: Option<nat>)
    requires Inv(s) && t < |s.threads| && s.made[t].None?
    ensures TablesOk(s.tables, s.hashes, s.stamps[t := stamp])
  {
    hide ValuesOk, Chained, StampsOk, AnswerOk, Find;
    ThreadIsOk(s, t);
    var stamps' := s.stamps[t := stamp];
    forall j | 0 <= j < |s.tables| ensures TableOk(s.tables[j], s.hashes, stamps') {
      TableIsOk(s, j);
      forall x | 0 <= x < |s.tables[j].keys| ensures KeyOk(s.tables[j].keys, s.hashes, stamps', x) {
        assert KeyOk(s.tables[j].keys, s.hashes, s.stamps, x);
        assert Absent(s.tables[j], t);
      }
    }
  }

  lemma StampStepKeeps(s: State, t: Tid, p: Pc, count: int, stamp: Option<nat>, answers: seq<Answer>)
    requires Inv(s) && t < |s.threads| && s.made[t].None? && StampsOk(s.stamps[t := stamp], count)
    requires ThreadOk(s.(count := count, stamps := s.stamps[t := stamp], answers := answers).Go(t, p), t)
    requires answers == s.answers || answers == s.answers + [Answer(t, None)]
    requires !s.threads[t].WriteValue?
    ensures Inv(s.(count := count, stamps := s.stamps[t := stamp], answers := answers).Go(t, p))
  {
    var s' := s.(count := count, stamps := s.stamps[t := stamp], answers := answers).Go(t, p);
    StampIrrelevant(s, t, stamp);
    ValuesStay(s, t, p);
    hide ThreadOk, TablesOk, Chained, StampsOk, ValuesOk;
    forall u | 0 <= u < |s'.threads| ensures ThreadOk(s', u) {
      ThreadIsOk(s, u);
      if u != t { SameForThread(s, s', u); }
    }
  }

  lemma AddCountKeeps(s: State, t: Tid)
    requires Inv(s) && t < |s.threads| && s.threads[t].AddCount?
    ensures Inv(Atomic(s, t))
  {
    var m := s.threads[t].m;
    ThreadIsOk(s, t);
    StampAdded(s.stamps, s.count, t);
    hide StampsOk;
    StampStepKeeps(s, t, CheckSize(m, s.count + 1), s.count + 1, Some(s.count + 1), s.answers);
  }

  lemma DropCountKeeps(s: State, t: Tid)
    requires Inv(s) && t < |s.threads| && (s.threads[t].DropCount? || s.threads[t].FailCount?)
    ensures Inv(Atomic(s, t))
  {
    ThreadIsOk(s, t);
    StampDropped(s.stamps, s.count, t);
    hide StampsOk;
    if s.threads[t].DropCount? {
      StampStepKeeps(s, t, Idle, s.count - 1, None, s.answers + [Answer(t, None)]);
    } else {
      StampStepKeeps(s, t, FailUnlock, s.count - 1, None, s.answers);
    }
  }

  /** Reading the sizes and taking or giving back the lock. */
  lemma LockStepKeeps(s: State, t: Tid)
    requires Inv(s) && t < |s.threads|
    requires var p := s.threads[t];
             || p.CheckSize? || p.TestAndSet? || p.LoadLocked? || p.Unlock? || p.CheckRoom? || p.LoadAgain?
                  || p.FailUnlock?
    ensures Inv(Atomic(s, t))
  {
    ThreadIsOk(s, t);
    TableIsOk(s, s.main);
    var s' := Atomic(s, t);
    if s.threads[t].FailUnlock? { assert AnswerOk(Answer(t, None), s.made); }
    hide TablesOk, Chained, StampsOk, ValuesOk, AnswerOk, Presents, AbsentFrom;
    assert s' == s.(lock := s'.lock, answers := s'.answers).Go(t, s'.threads[t]);
    QuietKeeps(s, t, s'.threads[t], s'.lock, s'.answers);
  }

  lemma MoreTables(tables: seq<Table>, main: nat, capacity: nat)
    requires Chained(tables, main) && capacity >= |tables[main].keys|
    ensures Chained(tables + [EmptyTable(capacity, Some(main))], |tables|)
  {
  }

  lemma EmptyTableOk(capacity: nat, prev: Option<nat>, hashes: seq<nat>, stamps: seq<Option<nat>>)
    requires capacity > 0
    ensures TableOk(EmptyTable(capacity, prev), hashes, stamps) && forall v :: Absent(EmptyTable(capacity, prev), v)
  {
  }

  lemma MoreTablesThread(s: State, s': State, u: Tid, table: Table)
    requires u < |s.threads| == |s.hashes| == |s.stamps| == |s.made| && ThreadOk(s, u) && !s.threads[u].Allocate?
    requires s'.(threads := s.threads, tables := s.tables, main := s.main) == s && s'.tables == s.tables + [table]
    requires |s'.threads| == |s.threads| && s'.threads[u] == s.threads[u] && Absent(table, u)
    ensures ThreadOk(s', u)
  {
    hide Passed, Absent;
    assert forall k | 0 <= k < |s.tables| :: s'.tables[k] == s.tables[k];
    assert Presents(s.tables, u) ==> Presents(s'.tables, u) by {
      if Presents(s.tables, u) {
        var k :| 0 <= k < |s.tables| && !Absent(s.tables[k], u);
        assert !Absent(s'.tables[k], u);
      }
    }
  }

  lemma AllocateKeeps(s: State, t: Tid)
    requires Inv(s) && t < |s.threads| && s.threads[t].Allocate?
    ensures Inv(Atomic(s, t))
  {
    var Allocate(m, n) := s.threads[t];
    var s' := Atomic(s, t);
    ThreadIsOk(s, t);
    TableIsOk(s, m);
    var capacity := Doubled(2 * |s.tables[m].keys|, n);
    var table := EmptyTable(capacity, Some(m));
    assert s'.tables == s.tables + [table];
    MoreTables(s.tables, s.main, capacity);
    EmptyTableOk(capacity, Some(m), s.hashes, s.stamps);
    ValuesStay(s, t, s'.threads[t]);
    MoreTablesValues(s.tables, table, s'.threads, s.made);
    hide Chained, StampsOk, AnswerOk, ValuesOk, TableOk, Doubled, EmptyTable, Absent;
    forall u | 0 <= u < |s'.threads| ensures ThreadOk(s', u) {
      ThreadIsOk(s, u);
      if u != t { MoreTablesThread(s, s', u, table) by { OneLock(s, t, u); } }
    }
  }

  /** The lock excludes. */
  lemma OneLock(s: State, t: Tid, u: Tid)
    requires Inv(s) && t < |s.threads| && u < |s.threads| && u != t && Locked(s.threads[t])
    ensures !Locked(s.threads[u])
  {
    ThreadIsOk(s, t);
    ThreadIsOk(s, u);
  }

  lemma MoreTablesValues(tables: seq<Table>, table: Table, threads: seq<Pc>, made: seq<Option<nat>>)
    requires ValuesOk(tables, threads, made) && |table.values| == |table.keys|
    requires forall x | 0 <= x < |table.keys| :: table.keys[x].None?
    ensures ValuesOk(tables + [table], threads, made)
  {
    var tables' := tables + [table];
    forall j, x | 0 <= j < |tables'| && 0 <= x < |tables'[j].keys| ensures ValueOk(tables'[j], j, x, threads, made) {
      if j < |tables| { assert ValueOk(tables[j], j, x, threads, made); }
    }
  }

  lemma CreateKeeps(s: State, t: Tid)
    requires Inv(s) && t < |s.threads| && s.threads[t].CreateProducer?
    ensures Inv(Atomic(s, t))
  {
    var s', m := Atomic(s, t), s.threads[t].m;
    ThreadIsOk(s, t);
    TableIsOk(s, m);
    assert Absent(s.tables[m], t);
    MadeValues(s, t, AddProbe(m, |s.owners|, 0), |s.owners|);
    hide TablesOk, Chained, StampsOk, ValuesOk;
    forall u | 0 <= u < |s'.threads| ensures ThreadOk(s', u) {
      ThreadIsOk(s, u);
      if u != t { MoreOwners(s, s', u); }
    }
    forall i | 0 <= i < |s.answers| ensures AnswerOk(s.answers[i], s'.made) { assert AnswerOk(s.answers[i], s.made); }
  }

  lemma MoreOwners(s: State, s': State, u: Tid)
    requires u < |s.threads| == |s.hashes| == |s.stamps| == |s.made| && ThreadOk(s, u)
    requires s'.(threads := s.threads, owners := s.owners, made := s.made) == s
    requires |s'.threads| == |s.threads| == |s'.made| && s'.threads[u] == s.threads[u] && s'.made[u] == s.made[u]
    requires |s.owners| <= |s'.owners| && s'.owners[..|s.owners|] == s.owners
    ensures ThreadOk(s', u)
  {
    hide Probes, Standing, AbsentFrom, Presents;
    if s.made[u].Some? { assert s'.owners[s.made[u].value] == s'.owners[..|s.owners|][s.made[u].value]; }
  }

  lemma MadeValues(s: State, t: Tid, p: Pc, made: nat)
    requires Inv(s) && t < |s.threads| && !s.threads[t].WriteValue? && s.made[t].None?
    ensures ValuesOk(s.tables, s.threads[t := p], s.made[t := Some(made)])
  {
    var threads', made' := s.threads[t := p], s.made[t := Some(made)];
    forall j, x | 0 <= j < |s.tables| && 0 <= x < |s.tables[j].keys|
      ensures ValueOk(s.tables[j], j, x, threads', made')
    {
      assert ValueOk(s.tables[j], j, x, s.threads, s.made);
    }
  }

  lemma FailKeeps(s: State, t: Tid)
    requires Inv(s) && Enabled(s, Fail(t))
    ensures Inv(Apply(s, Fail(t)))
  {
    ThreadIsOk(s, t);
    var s' := Apply(s, Fail(t));
    hide TablesOk, Chained, StampsOk, ValuesOk, AnswerOk;
    QuietKeeps(s, t, s'.threads[t], s.lock, s.answers);
  }

  lemma BeginKeeps(s: State, t: Tid)
    requires Inv(s) && Enabled(s, Begin(t))
    ensures Inv(Apply(s, Begin(t)))
  {
    ThreadIsOk(s, t);
    hide TablesOk, Chained, StampsOk, ValuesOk, AnswerOk;
    QuietKeeps(s, t, LoadMain, s.lock, s.answers);
  }

  lemma AtomicKeeps(s: State, t: Tid)
    requires Inv(s) && t < |s.threads| && !s.threads[t].Idle?
    ensures Inv(Atomic(s, t))
  {
    hide Inv, Atomic, KeyAt, ProbeSlot;
    match s.threads[t]
    case LoadMain => LoadMainKeeps(s, t);
    case Search(_, _, _) => SearchKeeps(s, t);
    case AddProbe(_, _, _) => AddProbeKeeps(s, t);
    case AddCas(m, p, i) =>
      if KeyAt(s, m, ProbeSlot(s, m, t, i)).None? { AddCasKeeps(s, t); } else { AddCasFailsKeeps(s, t); }
    case WriteValue(_, _, _) => WriteValueKeeps(s, t);
    case AddCount(_) => AddCountKeeps(s, t);
    case CheckSize(_, _) => LockStepKeeps(s, t);
    case TestAndSet(_, _) => LockStepKeeps(s, t);
    case LoadLocked(_) => LockStepKeeps(s, t);
    case Allocate(_, _) => AllocateKeeps(s, t);
    case Unlock(_, _) => LockStepKeeps(s, t);
    case FailCount(_) => DropCountKeeps(s, t);
    case FailUnlock => LockStepKeeps(s, t);
    case CheckRoom(_, _) => LockStepKeeps(s, t);
    case CreateProducer(_, _) => CreateKeeps(s, t);
    case DropCount(_) => DropCountKeeps(s, t);
    case LoadAgain(_) => LockStepKeeps(s, t);
  }

  lemma ApplyKeeps(s: State, a: Action)
    requires Inv(s) && Enabled(s, a)
    ensures Inv(Apply(s, a))
  {
    hide Inv, Atomic;
    match a
    case Begin(t) => BeginKeeps(s, t);
    case Step(t) => AtomicKeeps(s, t);
    case Fail(t) => FailKeeps(s, t);
  }
}
