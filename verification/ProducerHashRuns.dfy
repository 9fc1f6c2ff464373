module ProducerHashRuns {
  /** What holds in every run of the producer hash. */

  import opened Wrappers
  import opened ThreadCounting
  import opened IndexBlocks
  import opened ProducerHash
  import opened ProducerHashProof
  import opened ProducerHashSteps

  lemma InitHolds(s: State)
    requires Init(s)
    ensures Inv(s)
  {
    EmptyTableOk(s.tables[0].Capacity(), None, s.hashes, s.stamps);
    assert Counted(s.stamps) == {};
    forall n: nat ensures CountedTo(s.stamps, n) == {} { }
  }

  lemma {:induction false} EveryRunKeepsInv(run: seq<State>, i: nat)
    requires IsRun(run) && i < |run|
    ensures Inv(run[i])
  {
    if i == 0 {
      InitHolds(run[0]);
    } else {
      EveryRunKeepsInv(run, i - 1);
      assert Succeeds(run[i - 1], run[i - 1 + 1]);
      var a :| Enabled(run[i - 1], a) && run[i] == Apply(run[i - 1], a);
      ApplyKeeps(run[i - 1], a);
    }
  }

  /** Counting the keys that were copied from older tables, no table is three quarters full. */
  lemma TablesStayRoomy(run: seq<State>, i: nat, j: nat)
    requires IsRun(run) && i < |run| && j < |run[i].tables|
    ensures var table := run[i].tables[j]; 4 * |KeySet(table)| < 3 * table.Capacity()
  {
    hide IsRun, ThreadOk;
    EveryRunKeepsInv(run, i);
    TableIsOk(run[i], j);
    FewKeys(run[i].tables[j], run[i].hashes, run[i].stamps);
  }

  /** Every probe loop comes to a free slot or the key before it has passed all slots. */
  lemma EveryProbeEnds(run: seq<State>, i: nat, t: Tid)
    requires IsRun(run) && i < |run| && t < |run[i].threads|
    ensures var s, p := run[i], run[i].threads[t];
            && (p.Search? ==> p.j < |s.tables| && p.i < s.tables[p.j].Capacity())
            && (p.AddProbe? || p.AddCas? ==> p.m < |s.tables| && p.i < s.tables[p.m].Capacity())
  {
    hide IsRun;
    EveryRunKeepsInv(run, i);
    ThreadIsOk(run[i], t);
  }

  lemma IdOncePerTable(run: seq<State>, i: nat, j: nat, x: nat, y: nat)
    requires IsRun(run) && i < |run| && j < |run[i].tables| && x < |run[i].tables[j].keys|
             && y < |run[i].tables[j].keys|
    ensures var keys := run[i].tables[j].keys; keys[x].Some? && keys[x] == keys[y] ==> x == y
  {
    hide IsRun, ThreadOk;
    EveryRunKeepsInv(run, i);
    TableIsOk(run[i], j);
    KeyIsUnique(run[i].tables[j], run[i].hashes, run[i].stamps, x, y);
  }

  /** All calls of a thread return the same producer, however often the tables were replaced in between. */
  lemma ThreadKeepsItsProducer(run: seq<State>, i: nat, a: nat, b: nat)
    requires IsRun(run) && i < |run| && a < |run[i].answers| && b < |run[i].answers|
    requires run[i].answers[a].t == run[i].answers[b].t
    requires run[i].answers[a].producer.Some? && run[i].answers[b].producer.Some?
    ensures run[i].answers[a].producer == run[i].answers[b].producer
  {
    hide IsRun, ThreadOk;
    EveryRunKeepsInv(run, i);
    assert AnswerOk(run[i].answers[a], run[i].made) && AnswerOk(run[i].answers[b], run[i].made);
  }

  /** No two threads enqueue with the same producer. */
  lemma ProducersAreNotShared(run: seq<State>, i: nat, a: nat, b: nat)
    requires IsRun(run) && i < |run| && a < |run[i].answers| && b < |run[i].answers|
    requires run[i].answers[a].producer.Some? && run[i].answers[a].producer == run[i].answers[b].producer
    ensures run[i].answers[a].t == run[i].answers[b].t
  {
    hide IsRun, Probes, Standing;
    EveryRunKeepsInv(run, i);
    var s := run[i];
    assert AnswerOk(s.answers[a], s.made) && AnswerOk(s.answers[b], s.made);
    ThreadIsOk(s, s.answers[a].t);
    ThreadIsOk(s, s.answers[b].t);
  }

  /** A thread that once got a producer finds it: it is never counted again, and never left without an answer. */
  lemma InstalledIsFound(run: seq<State>, i: nat, t: Tid)
    requires IsRun(run) && i < |run| && t < |run[i].threads| && run[i].threads[t].Search?
    ensures var s, s' := run[i], Atomic(run[i], t);
            && t < |s.made|
            && (s'.answers == s.answers || (s.made[t].Some? && s'.answers == s.answers + [Answer(t, s.made[t])]))
            && (s.made[t].Some? ==> !s'.threads[t].AddCount?)
  {
    hide IsRun;
    EveryRunKeepsInv(run, i);
    var s := run[i];
    var Search(m, j, n) := s.threads[t];
    ThreadIsOk(s, t);
    var x := ProbeSlot(s, j, t, n);
    if KeyAt(s, j, x) == Some(t) {
      FoundValue(s, t, j, x);
    } else if KeyAt(s, j, x).None? && s.made[t].Some? {
      TableIsOk(s, j);
      NotInTable(s.tables[j], s.hashes, s.stamps, t, n);
    }
  }

  /** From the newest table the chain leads through all the others. */
  lemma NoTableIsLost(run: seq<State>, i: nat, j: nat)
    requires IsRun(run) && i < |run| && j < |run[i].tables|
    ensures run[i].main == |run[i].tables| - 1
    ensures run[i].tables[j].prev == if j == 0 then None else Some(j - 1)
  {
    hide IsRun, ThreadOk;
    EveryRunKeepsInv(run, i);
  }

  /** After allocating a table its thread always has room in it. */
  lemma RoomAfterGrowing(capacity: nat, n: nat)
    requires capacity > 0
    ensures n < Room(Doubled(2 * capacity, n))
  {
  }
}
