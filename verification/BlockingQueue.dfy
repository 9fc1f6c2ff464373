module BlockingQueue {
  /**
   `BlockingConcurrentQueue`: an inner queue and a semaphore that counts what is in
   it. A producer inserts first and signals afterwards; a consumer obtains permits
   first and then retries on the inner queue until it has that many elements.
   */

  import opened ThreadCounting
  import S = LightweightSemaphore

  /** `elements` is the size of the inner queue, `owed[t]` what thread `t` inserted and has not begun to signal. */
  datatype State = State(sema: S.State, elements: nat, owed: seq<nat>)

  datatype Action =
    | Insert(n: nat)              // inner.enqueue or inner.enqueue_bulk succeeds
    | Announce                    // sema->signal for what was inserted
    | Acquire(a: S.Action)        // the waiting calls and all later operations on the semaphore
    | Take(n: nat)                // inner.try_dequeue or inner.try_dequeue_bulk obtains n elements

  predicate Init(s: State) {
    && S.Init(s.sema, 0) && s.elements == 0 && |s.owed| == |s.sema.threads|
    && forall t | 0 <= t < |s.owed| :: s.owed[t] == 0
  }

  predicate Enabled(s: State, t: Tid, a: Action) {
    && t < |s.sema.threads| && t < |s.owed|
    && match a
       case Insert(_) => s.sema.threads[t] == S.Idle(0) && s.owed[t] == 0
       case Announce => s.sema.threads[t] == S.Idle(0) && s.owed[t] > 0
       case Acquire(b) => s.owed[t] == 0 && !b.Signal? && !b.Spend? && S.Enabled(s.sema, t, b)
       case Take(n) => s.sema.threads[t].Idle? && n <= s.sema.threads[t].permits && n <= s.elements
  }

  function Apply(s: State, t: Tid, a: Action): State
    requires Enabled(s, t, a)
  {
    match a
    case Insert(n) => s.(elements := s.elements + n, owed := s.owed[t := n])
    case Announce => s.(sema := S.Apply(s.sema, t, S.Signal(s.owed[t])), owed := s.owed[t := 0])
    case Acquire(b) => s.(sema := S.Apply(s.sema, t, b))
    case Take(n) => s.(elements := s.elements - n, sema := S.Apply(s.sema, t, S.Spend(n)))
  }

  // ---------------------------------------------------------------------------
  // The accounts
  // ---------------------------------------------------------------------------

  function AnnouncedBy(p: S.Pc): nat { if p.AddCount? then p.n else 0 }

  function OwedBy(n: nat): nat { n }

  /** Elements whose signal was called but did not reach the count yet. */
  ghost function Announced(ts: seq<S.Pc>): nat { Sum(ts, AnnouncedBy) }

  ghost function Owed(owed: seq<nat>): nat { Sum(owed, OwedBy) }

  ghost predicate Inv(s: State) {
    && S.Inv(s.sema)
    && |s.owed| == |s.sema.threads|
    && s.elements + s.sema.spent == s.sema.signalled + Owed(s.owed) + Announced(s.sema.threads)
  }

  lemma OwedUpdate(owed: seq<nat>, t: Tid, n: nat)
    requires t < |owed|
    ensures Owed(owed[t := n]) + owed[t] == Owed(owed) + n
  {
    SumUpdate(owed, t, n, OwedBy);
  }

  lemma AnnouncedUpdate(ts: seq<S.Pc>, t: Tid, p: S.Pc)
    requires t < |ts|
    ensures Announced(ts[t := p]) + AnnouncedBy(ts[t]) == Announced(ts) + AnnouncedBy(p)
  {
    SumUpdate(ts, t, p, AnnouncedBy);
  }

  /** An action on the semaphore signals exactly what it stops announcing. */
  lemma SemaphoreStep(s: S.State, t: Tid, a: S.Action)
    requires S.Enabled(s, t, a)
    ensures var s' := S.Apply(s, t, a);
            && |s'.threads| == |s.threads|
            && s'.signalled + Announced(s'.threads) == s.signalled + Announced(s.threads)
                 + (if a.Signal? then a.n else 0)
            && s'.spent == s.spent + if a.Spend? then a.n else 0
  {
    hide Announced;
    var s' := S.Apply(s, t, a);
    assert s'.threads == s.threads[t := s'.threads[t]];
    AnnouncedUpdate(s.threads, t, s'.threads[t]);
  }

  lemma ApplyKeeps(s: State, t: Tid, a: Action)
    requires Inv(s) && Enabled(s, t, a)
    ensures Inv(Apply(s, t, a))
  {
    hide Announced, Owed, S.Inv, S.Apply;
    match a
    case Insert(n) => OwedUpdate(s.owed, t, n);
    case Announce =>
      OwedUpdate(s.owed, t, 0);
      SemaphoreStep(s.sema, t, S.Signal(s.owed[t]));
      S.ApplyKeeps(s.sema, t, S.Signal(s.owed[t]));
    case Acquire(b) =>
      SemaphoreStep(s.sema, t, b);
      S.ApplyKeeps(s.sema, t, b);
    case Take(n) =>
      SemaphoreStep(s.sema, t, S.Spend(n));
      S.ApplyKeeps(s.sema, t, S.Spend(n));
  }

  // ---------------------------------------------------------------------------
  // Every run
  // ---------------------------------------------------------------------------

  ghost predicate Succeeds(s: State, s': State) {
    exists t, a :: Enabled(s, t, a) && s' == Apply(s, t, a)
  }

  ghost predicate IsRun(run: seq<State>) {
    && run != [] && Init(run[0])
    && forall i | 0 <= i < |run| - 1 :: Succeeds(run[i], run[i + 1])
  }

  lemma {:induction false} EveryRunKeepsInv(run: seq<State>, i: nat)
    requires IsRun(run) && i < |run|
    ensures Inv(run[i])
  {
    if i == 0 {
      S.InitHolds(run[0].sema, 0);
      SumZero(run[0].owed, OwedBy);
      SumZero(run[0].sema.threads, AnnouncedBy);
    } else {
      EveryRunKeepsInv(run, i - 1);
      assert Succeeds(run[i - 1], run[i - 1 + 1]);
      var t, a :| Enabled(run[i - 1], t, a) && run[i] == Apply(run[i - 1], t, a);
      ApplyKeeps(run[i - 1], t, a);
    }
  }

  /** The inner queue always has at least as many elements as there are permits granted and not yet acted on. */
  lemma ElementsCoverPermits(run: seq<State>, i: nat)
    requires IsRun(run) && i < |run|
    ensures run[i].elements >= S.Held(run[i].sema.threads)
  {
    EveryRunKeepsInv(run, i);
  }

  /**
   A consumer that retries on the inner queue never waits for an empty queue: as
   long as it has permits left, that many elements are there for it to take.
   */
  lemma RetryingFindsElements(run: seq<State>, i: nat, t: Tid)
    requires IsRun(run) && i < |run| && t < |run[i].sema.threads| && run[i].sema.threads[t].Idle?
    ensures run[i].elements >= run[i].sema.threads[t].permits
    ensures Enabled(run[i], t, Take(run[i].sema.threads[t].permits))
  {
    EveryRunKeepsInv(run, i);
    S.TotalsUpdate(run[i].sema.threads, t, run[i].sema.threads[t]);
  }

  /**
   A consumer sleeps without a permit in the kernel only while every element is
   promised to another consumer, once all signals are through.
   */
  lemma SleepingMeansNothingLeft(run: seq<State>, i: nat, t: Tid)
    requires IsRun(run) && i < |run| && t < |run[i].sema.threads| && run[i].sema.threads[t].KernelWait?
    requires Owed(run[i].owed) == 0 && Announced(run[i].sema.threads) == 0 && S.Posting(run[i].sema.threads) == 0
    requires run[i].sema.kernel == 0
    ensures run[i].sema.count < 0
    ensures run[i].elements == S.Held(run[i].sema.threads)
  {
    EveryRunKeepsInv(run, i);
    S.WaiterIsCounted(run[i].sema.threads, t);
  }

  /** `size_approx` is exact once all calls have completed. */
  lemma StableSizeIsExact(run: seq<State>, i: nat)
    requires IsRun(run) && i < |run|
    requires forall t | 0 <= t < |run[i].sema.threads| :: run[i].sema.threads[t] == S.Idle(0)
    requires forall t | 0 <= t < |run[i].owed| :: run[i].owed[t] == 0
    ensures S.Positive(run[i].sema.count) == run[i].elements
  {
    EveryRunKeepsInv(run, i);
    var s := run[i];
    SumZero(s.owed, OwedBy);
    SumZero(s.sema.threads, AnnouncedBy);
    SumZero(s.sema.threads, S.HeldBy);
    SumZero(s.sema.threads, S.WaitsBy);
    SumZero(s.sema.threads, S.PostsBy);
  }
}
