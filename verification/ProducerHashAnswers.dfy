module ProducerHashAnswers {
  /**
   What a call of `get_or_add_implicit_producer` answers: null if and only if an allocation failed during the
   call; and a thread that is not disturbed gets its producer, and finds it in the newest table from then on.
   */

  import opened Wrappers
  import opened ThreadCounting
  import opened IndexBlocks
  import opened ProducerHash
  import opened ProducerHashProof
  import opened ProducerHashSteps
  import opened ProducerHashRuns

  // ---------------------------------------------------------------------------
  // When the answer is null
  // ---------------------------------------------------------------------------

  /** A run, and what was done in it. */
  ghost predicate IsRunBy(run: seq<State>, acts: seq<Action>) {
    && |run| == |acts| + 1 && Init(run[0])
    && forall i | 0 <= i < |acts| :: Enabled(run[i], acts[i]) && run[i + 1] == Apply(run[i], acts[i])
  }

  lemma RunByIsRun(run: seq<State>, acts: seq<Action>)
    requires IsRunBy(run, acts)
    ensures IsRun(run)
  {
    forall i | 0 <= i < |run| - 1 ensures Succeeds(run[i], run[i + 1]) { assert Enabled(run[i], acts[i]); }
  }

  predicate FailsAt(acts: seq<Action>, t: Tid, k: nat, i: nat)
    requires i <= |acts|
  {
    k < i && acts[k] == Fail(t) && forall l | k < l < i :: acts[l] != Begin(t)
  }

  /** An allocation has failed in the call that thread `t` began last. */
  ghost predicate HasFailed(acts: seq<Action>, t: Tid, i: nat)
    requires i <= |acts|
  {
    exists k: nat :: FailsAt(acts, t, k, i)
  }

  predicate GivesUp(p: Pc) { p.FailCount? || p.FailUnlock? || p.DropCount? }

  lemma FailedNext(acts: seq<Action>, t: Tid, i: nat)
    requires i < |acts|
    ensures HasFailed(acts, t, i + 1) <==> acts[i] == Fail(t) || (HasFailed(acts, t, i) && acts[i] != Begin(t))
  {
    if HasFailed(acts, t, i + 1) {
      var k: nat :| FailsAt(acts, t, k, i + 1);
      assert k < i ==> FailsAt(acts, t, k, i) && acts[i] != Begin(t);
    }
    if acts[i] == Fail(t) { assert FailsAt(acts, t, i, i + 1); }
    if HasFailed(acts, t, i) && acts[i] != Begin(t) {
      var k: nat :| FailsAt(acts, t, k, i);
      assert FailsAt(acts, t, k, i + 1);
    }
  }

  /** Only a failure makes a thread give up, and once it gives up it does so till the end of its call. */
  lemma GivingUpGoesOn(s: State, a: Action, t: Tid)
    requires Enabled(s, a) && t < |s.threads|
    ensures var p, s' := s.threads[t], Apply(s, a);
            && |s'.threads| == |s.threads|
            && (GivesUp(s'.threads[t]) ==> a == Fail(t) || (GivesUp(p) && a != Begin(t)))
            && (a == Fail(t) || (GivesUp(p) && a != Begin(t)) ==> GivesUp(s'.threads[t]) || s'.threads[t].Idle?)
            && (p.Idle? && a != Begin(t) ==> s'.threads[t].Idle?)
  {
    hide TableAt, KeyAt, ProbeSlot, Doubled, EmptyTable, WithKey, WithValue;
    if a.Step? {
      var p := s.threads[a.t];
      if p.AddCas? { KeepsThreads(s, p.m, ProbeSlot(s, p.m, a.t, p.i), a.t, 0); }
      if p.WriteValue? { KeepsThreads(s, p.m, p.x, a.t, p.p); }
    }
  }

  lemma KeepsThreads(s: State, m: nat, x: nat, t: Tid, p: nat)
    ensures WithKey(s, m, x, t).threads == WithValue(s, m, x, p).threads == s.threads
    ensures WithKey(s, m, x, t).answers == WithValue(s, m, x, p).answers == s.answers
  {
  }

  lemma {:induction false} GivesUpIffFailed(run: seq<State>, acts: seq<Action>, i: nat, t: Tid)
    requires IsRunBy(run, acts) && i < |run| && t < |run[0].threads|
    ensures |run[i].threads| == |run[0].threads|
    ensures GivesUp(run[i].threads[t]) ==> HasFailed(acts, t, i)
    ensures HasFailed(acts, t, i) ==> GivesUp(run[i].threads[t]) || run[i].threads[t].Idle?
  {
    hide Apply, HasFailed, GivesUp;
    if i == 0 {
      NothingFailed(acts, t, run[0]);
    } else {
      GivesUpIffFailed(run, acts, i - 1, t);
      assert Enabled(run[i - 1], acts[i - 1]) && run[i - 1 + 1] == Apply(run[i - 1], acts[i - 1]);
      FailedNext(acts, t, i - 1);
      GivingUpGoesOn(run[i - 1], acts[i - 1], t);
    }
  }

  lemma NothingFailed(acts: seq<Action>, t: Tid, s: State)
    requires Init(s) && t < |s.threads|
    ensures !HasFailed(acts, t, 0) && !GivesUp(s.threads[t])
  {
  }

  /** A step that answers is one of the thread that is answered; the answer is null if it gives up, and only then. */
  lemma AnswersToOne(s: State, a: Action)
    requires Inv(s) && Enabled(s, a) && Apply(s, a).answers != s.answers
    ensures a.Step? && exists p :: Apply(s, a).answers == s.answers + [Answer(a.t, p)]
    ensures Apply(s, a).answers == s.answers + [Answer(a.t, None)] <==> GivesUp(s.threads[a.t])
    ensures !s.threads[a.t].Idle?
  {
    var t := a.t;
    var p := s.threads[t];
    ThreadIsOk(s, t);
    if p.AddCas? { KeepsThreads(s, p.m, ProbeSlot(s, p.m, t, p.i), t, 0); }
    if p.WriteValue? { KeepsThreads(s, p.m, p.x, t, p.p); }
    if p.Search? && KeyAt(s, p.j, ProbeSlot(s, p.j, t, p.i)) == Some(t) {
      FoundValue(s, t, p.j, ProbeSlot(s, p.j, t, p.i));
    }
    hide Inv, ThreadOk, Doubled, EmptyTable, WithKey, WithValue;
    var answer := Apply(s, a).answers[|s.answers|];
    assert Apply(s, a).answers == s.answers + [Answer(t, answer.producer)];
  }

  /** The `q`-th answer was given in step `j`, and is null if and only if an allocation had failed in that call. */
  ghost predicate AnsweredAt(run: seq<State>, acts: seq<Action>, j: nat, q: nat, answer: Answer)
    requires |run| == |acts| + 1
  {
    && j < |acts| && acts[j] == Step(answer.t) && |run[j].answers| == q && !Nth(run[j].threads, answer.t, Idle).Idle?
    && (answer.producer.None? <==> HasFailed(acts, answer.t, j))
  }

  /** In every run, the answer to a call is null if and only if one of the allocations of that call has failed. */
  lemma {:induction false} NullIffAllocationFailed(run: seq<State>, acts: seq<Action>, i: nat, q: nat)
    requires IsRunBy(run, acts) && i < |run| && q < |run[i].answers|
    ensures exists j | 0 <= j < i :: AnsweredAt(run, acts, j, q, run[i].answers[q])
  {
    hide Inv, HasFailed, Apply, GivesUp;
    assert i > 0;
    var s, a := run[i - 1], acts[i - 1];
    assert Enabled(s, a) && run[i - 1 + 1] == Apply(s, a);
    RunByIsRun(run, acts);
    EveryRunKeepsInv(run, i - 1);
    if run[i].answers != s.answers { AnswersToOne(s, a); }
    if q < |s.answers| {
      NullIffAllocationFailed(run, acts, i - 1, q);
      assert run[i].answers[q] == s.answers[q];
    } else {
      assert |run[i].answers| == |s.answers| + 1;
      SameThreads(run, acts, i - 1);
      GivesUpIffFailed(run, acts, i - 1, a.t);
      assert AnsweredAt(run, acts, i - 1, q, run[i].answers[q]);
    }
  }

  lemma {:induction false} SameThreads(run: seq<State>, acts: seq<Action>, i: nat)
    requires IsRunBy(run, acts) && i < |run|
    ensures |run[i].threads| == |run[0].threads|
  {
    hide Apply;
    if i > 0 {
      SameThreads(run, acts, i - 1);
      assert Enabled(run[i - 1], acts[i - 1]) && run[i - 1 + 1] == Apply(run[i - 1], acts[i - 1]);
      GivingUpGoesOn(run[i - 1], acts[i - 1], acts[i - 1].t);
    }
  }

  // ---------------------------------------------------------------------------
  // Running alone
  // ---------------------------------------------------------------------------

  /** `n` steps of thread `t` alone, no allocation failing, or as many as its call takes. */
  function Alone(s: State, t: Tid, n: nat): State
    decreases n
  {
    if n == 0 || t >= |s.threads| || s.threads[t].Idle? then s else Alone(Atomic(s, t), t, n - 1)
  }

  /** No other thread has the lock. */
  predicate Free(s: State, t: Tid) { s.lock.None? || s.lock == Some(t) }

  /** The table that the thread works on is the newest. */
  predicate Current(s: State, p: Pc) {
    match p
    case Search(m, _, _) => m == s.main
    case AddProbe(m, _, _) => m == s.main
    case AddCas(m, _, _) => m == s.main
    case WriteValue(m, _, _) => m == s.main
    case AddCount(m) => m == s.main
    case CheckSize(m, _) => m == s.main
    case TestAndSet(m, _) => m == s.main
    case Unlock(m, _) => m == s.main
    case CheckRoom(m, _) => m == s.main
    case CreateProducer(m, _) => m == s.main
    case _ => true
  }

  /** The thread's id stands in the table, beside its producer. */
  ghost predicate Holds(table: Table, t: Tid, p: Option<nat>) {
    exists x: nat :: x < |table.keys| && x < |table.values| && table.keys[x] == Some(t) && table.values[x] == p
  }

  function Phase(s: State, p: Pc): nat {
    match p
    case LoadMain => 15
    case Search(_, _, _) => 14
    case AddCount(_) => 13
    case Unlock(m, n) => if n < Room(TableAt(s, m).Capacity()) then 5 else 12
    case CheckRoom(m, n) => if n < Room(TableAt(s, m).Capacity()) then 4 else 11
    case LoadAgain(_) => 10
    case CheckSize(_, _) => 9
    case TestAndSet(_, _) => 8
    case LoadLocked(_) => 7
    case Allocate(_, _) => 6
    case CreateProducer(_, _) => 3
    case AddProbe(_, _, _) => 2
    case AddCas(_, _, _) => 2
    case WriteValue(_, _, _) => 1
    case _ => 0
  }

  /** How many tables there are behind the one that is searched. */
  function Behind(p: Pc): nat { if p.Search? then p.j else 0 }

  /** How many slots of the table are left to be probed. */
  function Slots(s: State, p: Pc): int {
    match p
    case Search(_, j, i) => TableAt(s, j).Capacity() - i
    case AddProbe(m, _, i) => 2 * (TableAt(s, m).Capacity() - i) + 1
    case AddCas(m, _, i) => 2 * (TableAt(s, m).Capacity() - i)
    case _ => 0
  }

  predicate Closer(s: State, p: Pc, s': State, p': Pc) {
    || Phase(s', p') < Phase(s, p)
    || (Phase(s', p') == Phase(s, p)
        && (Behind(p') < Behind(p) || (Behind(p') == Behind(p) && 0 <= Slots(s', p') < Slots(s, p))))
  }

  /** One step of the thread brings it closer to its answer, or gives it the producer made for it. */
  ghost predicate Progresses(s: State, s': State, t: Tid)
    requires t < |s.threads| == |s'.threads|
  {
    var p, p' := s.threads[t], s'.threads[t];
    && Free(s', t)
    && (p'.Idle? ==>
          && t < |s'.made| && s'.made[t].Some? && s'.answers == s.answers + [Answer(t, s'.made[t])]
          && (Current(s, p) ==> Holds(TableAt(s', s'.main), t, s'.made[t])))
    && (!p'.Idle? ==>
          && !GivesUp(p') && s'.answers == s.answers && Closer(s, p, s', p')
          && (Current(s, p) ==> Current(s', p')))
  }

  /** The thread is in a call, no allocation of which has failed. */
  predicate Goes(s: State, t: Tid) {
    t < |s.threads| && !s.threads[t].Idle? && !GivesUp(s.threads[t]) && Free(s, t)
  }

  lemma SearchProgresses(s: State, t: Tid)
    requires Inv(s) && Goes(s, t) && s.threads[t].Search?
    ensures |Atomic(s, t).threads| == |s.threads| && Progresses(s, Atomic(s, t), t)
  {
    var Search(m, j, i) := s.threads[t];
    ThreadIsOk(s, t);
    TableIsOk(s, j);
    var x := ProbeSlot(s, j, t, i);
    if KeyAt(s, j, x) == Some(t) {
      FoundValue(s, t, j, x);
      hide Inv, ThreadOk;
    } else if KeyAt(s, j, x).Some? {
      PassesOne(s, j, t, i);
      hide Inv, ThreadOk;
    } else {
      assert s.tables[j].prev == if j == 0 then None else Some(j - 1);
      hide Inv, ThreadOk;
    }
  }

  lemma AddingProgresses(s: State, t: Tid)
    requires Inv(s) && Goes(s, t) && (s.threads[t].AddProbe? || s.threads[t].AddCas?)
    ensures |Atomic(s, t).threads| == |s.threads| && Progresses(s, Atomic(s, t), t)
  {
    ThreadIsOk(s, t);
    var p := s.threads[t];
    if p.AddCas? { KeepsThreads(s, p.m, ProbeSlot(s, p.m, t, p.i), t, 0); }
    hide Inv, ProbeSlot, Passed, Absent;
  }

  lemma WritingProgresses(s: State, t: Tid)
    requires Inv(s) && Goes(s, t) && s.threads[t].WriteValue?
    ensures |Atomic(s, t).threads| == |s.threads| && Progresses(s, Atomic(s, t), t)
  {
    var WriteValue(m, p, x) := s.threads[t];
    ThreadIsOk(s, t);
    TableIsOk(s, m);
    hide Inv;
    var table := Atomic(s, t).tables[m];
    assert table.keys[x] == Some(t) && table.values[x] == Some(p);
  }

  /** From counting the thread to making its producer. */
  lemma CountingProgresses(s: State, t: Tid)
    requires Inv(s) && Goes(s, t)
    requires var p := s.threads[t]; p.LoadMain? || p.AddCount? || p.CheckRoom? || p.CreateProducer? || p.LoadAgain?
    ensures |Atomic(s, t).threads| == |s.threads| && Progresses(s, Atomic(s, t), t)
  {
    ThreadIsOk(s, t);
    hide Inv, Slot, Behind;
  }

  lemma AllocatingProgresses(s: State, t: Tid)
    requires Inv(s) && Goes(s, t) && s.threads[t].Allocate?
    ensures |Atomic(s, t).threads| == |s.threads| && Progresses(s, Atomic(s, t), t)
  {
    ThreadIsOk(s, t);
    TableIsOk(s, s.main);
    var Allocate(m, n) := s.threads[t];
    RoomAfterGrowing(s.tables[m].Capacity(), n);
    hide Inv, ThreadOk, Slots, Behind, Doubled;
  }

  /** Seeing to it that there is room. */
  lemma GrowingProgresses(s: State, t: Tid)
    requires Inv(s) && Goes(s, t)
    requires var p := s.threads[t]; p.CheckSize? || p.TestAndSet? || p.LoadLocked? || p.Unlock?
    ensures |Atomic(s, t).threads| == |s.threads| && Progresses(s, Atomic(s, t), t)
  {
    ThreadIsOk(s, t);
    TableIsOk(s, s.main);
    hide Inv, ThreadOk, Slots, Behind;
  }

  lemma AtomicProgresses(s: State, t: Tid)
    requires Inv(s) && Goes(s, t)
    ensures |Atomic(s, t).threads| == |s.threads| && Progresses(s, Atomic(s, t), t)
  {
    hide Inv, Atomic, Progresses;
    match s.threads[t]
    case Search(_, _, _) => SearchProgresses(s, t);
    case AddProbe(_, _, _) => AddingProgresses(s, t);
    case AddCas(_, _, _) => AddingProgresses(s, t);
    case WriteValue(_, _, _) => WritingProgresses(s, t);
    case CheckSize(_, _) => GrowingProgresses(s, t);
    case TestAndSet(_, _) => GrowingProgresses(s, t);
    case LoadLocked(_) => GrowingProgresses(s, t);
    case Allocate(_, _) => AllocatingProgresses(s, t);
    case Unlock(_, _) => GrowingProgresses(s, t);
    case _ => CountingProgresses(s, t);
  }

  /** The call of thread `t` has ended with the producer made for it. */
  ghost predicate HasProducer(s: State, s': State, t: Tid) {
    && t < |s'.threads| && s'.threads[t].Idle? && s'.lock.None? && t < |s'.made| && s'.made[t].Some?
    && s'.answers == s.answers + [Answer(t, s'.made[t])]
  }

  lemma {:induction false} AloneEnds(s: State, t: Tid) returns (n: nat)
    requires Inv(s) && Goes(s, t)
    ensures var s' := Alone(s, t, n);
            HasProducer(s, s', t) && (Current(s, s.threads[t]) ==> Holds(TableAt(s', s'.main), t, s'.made[t]))
    decreases Phase(s, s.threads[t]), Behind(s.threads[t]), Slots(s, s.threads[t])
  {
    var s' := Atomic(s, t);
    AtomicProgresses(s, t);
    AtomicKeeps(s, t);
    hide Inv, Atomic, Holds;
    if s'.threads[t].Idle? {
      n := 1;
      assert Alone(s, t, 1) == Alone(s', t, 0);
      NotLocked(s', t);
    } else {
      n := AloneEnds(s', t);
      n := n + 1;
    }
  }

  lemma NotLocked(s: State, t: Tid)
    requires Inv(s) && t < |s.threads| && s.threads[t].Idle? && Free(s, t)
    ensures s.lock.None?
  {
    ThreadIsOk(s, t);
  }

  /**
   In every reachable state, a thread in whose call no allocation has failed ends it with its producer, if it runs
   alone from there, no allocation fails, and no other thread has the lock.
   */
  lemma UndisturbedCallEnds(run: seq<State>, i: nat, t: Tid)
    requires IsRun(run) && i < |run| && Goes(run[i], t)
    ensures exists n: nat :: HasProducer(run[i], Alone(run[i], t, n), t)
  {
    hide IsRun;
    EveryRunKeepsInv(run, i);
    var n := AloneEnds(run[i], t);
  }

  /**
   A call that runs alone with all allocations successful returns the thread's producer, and leaves it in the
   newest table beside the thread's id, whether the thread was there before or not.
   */
  lemma UndisturbedCall(run: seq<State>, i: nat, t: Tid)
    requires IsRun(run) && i < |run| && Enabled(run[i], Begin(t)) && run[i].lock.None?
    ensures exists n: nat ::
              var s' := Alone(Apply(run[i], Begin(t)), t, n);
              HasProducer(run[i], s', t) && Holds(TableAt(s', s'.main), t, s'.made[t])
  {
    hide IsRun, Inv;
    EveryRunKeepsInv(run, i);
    ApplyKeeps(run[i], Begin(t));
    var n := AloneEnds(Apply(run[i], Begin(t)), t);
  }
}
