module LightweightSemaphore {
  /**
   The semaphore of the blocking queue: an atomic count that goes negative while
   threads wait, above a kernel semaphore on which they sleep.

   The single-permit calls are the bulk calls with a maximum of one. Threads
   interleave at single operations on `m_count` and `m_sema`; a weak
   compare-exchange may fail although the count matches, and a timed wait may give
   up at any moment.
   */

  import opened ThreadCounting

  /** What follows when `tryWaitMany` obtains nothing. */
  datatype Cont = Finish | Block(timed: bool)

  /** `base` permits were obtained earlier in the same call. */
  datatype Pc =
    | Idle(permits: nat)                      // the last call returned this many permits, some may be left
      // tryWaitMany
    | TryLoad(base: nat, max: nat, k: Cont)
    | TryCas(base: nat, max: nat, seen: int, k: Cont)
      // waitManyWithPartialSpinning
    | SpinLoad(max: nat, spin: nat, timed: bool)
    | SpinCas(max: nat, spin: nat, seen: int, timed: bool)
    | Decrement(max: nat, timed: bool)
    | KernelWait(max: nat, timed: bool)
    | LateLoad(max: nat)                      // the loop after the timeout
    | LateTry(max: nat)
    | LateCas(max: nat, seen: int)
      // signal
    | AddCount(n: nat)
    | Post(left: nat)

  const SPIN: nat := 10000

  /** `signalled` counts the initial permits and all that were signalled, `spent` those callers used up. */
  datatype State = State(count: int, kernel: nat, threads: seq<Pc>, signalled: nat, spent: nat)
  {
    function Go(t: Tid, p: Pc): State
      requires t < |threads|
    {
      this.(threads := threads[t := p])
    }
  }

  datatype Action =
    | TryWaitMany(max: nat)
    | WaitMany(max: nat, timed: bool)
    | Signal(n: nat)
    | Spend(n: nat)        // the caller acts on permits it was given
    | Step                 // the next operation of a running call
    | FailSpuriously       // a weak compare-exchange fails for no reason
    | TimeOut              // a timed wait gives up

  predicate Init(s: State, initial: nat) {
    && s.count == initial && s.kernel == 0 && s.signalled == initial && s.spent == 0
    && forall t | 0 <= t < |s.threads| :: s.threads[t] == Idle(0)
  }

  predicate Enabled(s: State, t: Tid, a: Action) {
    && t < |s.threads|
    && match a
       case TryWaitMany(_) => s.threads[t] == Idle(0)
       case WaitMany(_, _) => s.threads[t] == Idle(0)
       case Signal(_) => s.threads[t] == Idle(0)
       case Spend(n) => s.threads[t].Idle? && n <= s.threads[t].permits
       case Step => !s.threads[t].Idle? && (s.threads[t].KernelWait? ==> s.kernel > 0)
       case FailSpuriously => s.threads[t].TryCas?
       case TimeOut => s.threads[t].KernelWait? && s.threads[t].timed
  }

  function Apply(s: State, t: Tid, a: Action): State
    requires Enabled(s, t, a)
  {
    match a
    case TryWaitMany(max) => s.Go(t, TryLoad(0, max, Finish))
    case WaitMany(max, timed) => s.Go(t, TryLoad(0, max, Block(timed)))
    case Signal(n) => s.Go(t, AddCount(n))
    case Spend(n) => s.(spent := s.spent + n).Go(t, Idle(s.threads[t].permits - n))
    case Step => Operation(s, t)
    case FailSpuriously =>
      var TryCas(base, max, _, k) := s.threads[t];
      s.Go(t, TryAgain(base, max, s.count, k))
    case TimeOut => s.Go(t, LateLoad(s.threads[t].max))
  }

  /** `while (oldCount > 0)` of `tryWaitMany`, and what follows the loop. */
  function TryAgain(base: nat, max: nat, seen: int, k: Cont): Pc {
    if seen > 0 then TryCas(base, max, seen, k)
    else if k.Block? && max > 0 then SpinLoad(max, SPIN, k.timed)
    else Idle(base)
  }

  /** What `tryWaitMany` leads to once it took `got` permits, possibly none when `max` is zero. */
  function TryDone(base: nat, max: nat, got: nat, k: Cont): Pc {
    if got == 0 && k.Block? && max > 0 then SpinLoad(max, SPIN, k.timed) else Idle(base + got)
  }

  /** One permit is in hand: fetch the rest greedily. */
  function GotOne(max: nat): Pc {
    if max > 1 then TryLoad(1, max - 1, Finish) else Idle(1)
  }

  /** `while (--spin >= 0)`. */
  function SpinAgain(max: nat, spin: nat, timed: bool): Pc {
    if spin > 1 then SpinLoad(max, spin - 1, timed) else Decrement(max, timed)
  }

  /** The count after taking at most `max` of `seen`. */
  function Remaining(seen: int, max: nat): int { if seen > max then seen - max else 0 }

  function Operation(s: State, t: Tid): State
    requires Enabled(s, t, Step)
  {
    match s.threads[t]
    case TryLoad(base, max, k) => s.Go(t, TryAgain(base, max, s.count, k))
    case TryCas(base, max, seen, k) =>
      if s.count == seen && seen > 0 then
        s.(count := Remaining(seen, max)).Go(t, TryDone(base, max, seen - Remaining(seen, max), k))
      else s.Go(t, TryAgain(base, max, s.count, k))
    case SpinLoad(max, spin, timed) =>
      s.Go(t, if s.count > 0 then SpinCas(max, spin, s.count, timed) else SpinAgain(max, spin, timed))
    case SpinCas(max, spin, seen, timed) =>
      if s.count == seen && seen > 0 then
        s.(count := Remaining(seen, max)).Go(t, Idle(seen - Remaining(seen, max)))
      else s.Go(t, SpinAgain(max, spin, timed))
    case Decrement(max, timed) =>
      s.(count := s.count - 1).Go(t, if s.count > 0 then GotOne(max) else KernelWait(max, timed))
    case KernelWait(max, _) => s.(kernel := s.kernel - 1).Go(t, GotOne(max))
    case LateLoad(max) => s.Go(t, if s.count >= 0 then LateTry(max) else LateCas(max, s.count))
    case LateTry(max) =>
      if s.kernel > 0 then s.(kernel := s.kernel - 1).Go(t, GotOne(max)) else s.Go(t, LateLoad(max))
    case LateCas(max, seen) =>
      if s.count == seen then s.(count := s.count + 1).Go(t, Idle(0)) else s.Go(t, LateLoad(max))
    case AddCount(n) =>
      s.(count := s.count + n, signalled := s.signalled + n).Go(t, PostAll(ToRelease(s.count, n)))
    case Post(left) =>
      s.(kernel := s.kernel + 1).Go(t, PostAll(left - 1))
  }

  /** How many sleeping threads a signal of `n` releases. */
  function ToRelease(seen: int, n: nat): int { if -seen < n then -seen else n }

  function PostAll(left: int): Pc { if left > 0 then Post(left) else Idle(0) }

  // ---------------------------------------------------------------------------
  // The accounts
  // ---------------------------------------------------------------------------

  /** Permits a thread was granted and has not spent. */
  function HeldBy(p: Pc): nat {
    match p
    case Idle(permits) => permits
    case TryLoad(base, _, _) => base
    case TryCas(base, _, _, _) => base
    case _ => 0
  }

  /** One for a thread that decremented the count below zero and has no answer yet. */
  function WaitsBy(p: Pc): nat {
    if p.KernelWait? || p.LateLoad? || p.LateTry? || p.LateCas? then 1 else 0
  }

  /** Kernel permits a signaller still has to post. */
  function PostsBy(p: Pc): nat { if p.Post? then p.left else 0 }

  ghost function Held(ts: seq<Pc>): nat { Sum(ts, HeldBy) }

  ghost function Waiting(ts: seq<Pc>): nat { Sum(ts, WaitsBy) }

  ghost function Posting(ts: seq<Pc>): nat { Sum(ts, PostsBy) }

  function Positive(x: int): nat { if x > 0 then x else 0 }

  predicate PcOk(p: Pc) {
    && (p.TryLoad? || p.TryCas? ==> p.k.Finish? || p.base == 0)
    && (p.TryCas? ==> p.seen > 0)
    && (p.SpinCas? ==> p.seen > 0)
    && (p.LateCas? ==> p.seen < 0)
    && (p.Post? ==> p.left > 0)
    && (p.SpinLoad? || p.SpinCas? || p.Decrement? || p.KernelWait? ==> p.max > 0)
    && (p.LateLoad? || p.LateTry? || p.LateCas? ==> p.max > 0)
  }

  ghost predicate Inv(s: State) {
    && Waiting(s.threads) == Positive(-s.count) + s.kernel + Posting(s.threads)
    && s.spent + Held(s.threads) + Positive(s.count) + s.kernel + Posting(s.threads) == s.signalled
    && forall t | 0 <= t < |s.threads| :: PcOk(s.threads[t])
  }

  lemma TotalsUpdate(ts: seq<Pc>, t: Tid, p: Pc)
    requires t < |ts|
    ensures Held(ts[t := p]) + HeldBy(ts[t]) == Held(ts) + HeldBy(p) && Held(ts) >= HeldBy(ts[t])
    ensures Waiting(ts[t := p]) + WaitsBy(ts[t]) == Waiting(ts) + WaitsBy(p) && Waiting(ts) >= WaitsBy(ts[t])
    ensures Posting(ts[t := p]) + PostsBy(ts[t]) == Posting(ts) + PostsBy(p) && Posting(ts) >= PostsBy(ts[t])
  {
    SumUpdate(ts, t, p, HeldBy);
    SumUpdate(ts, t, p, WaitsBy);
    SumUpdate(ts, t, p, PostsBy);
  }

  lemma OperationKeeps(s: State, t: Tid)
    requires Inv(s) && Enabled(s, t, Step)
    ensures Inv(Operation(s, t))
  {
    hide Held, Waiting, Posting;
    var s' := Operation(s, t);
    assert s'.threads == s.threads[t := s'.threads[t]];
    TotalsUpdate(s.threads, t, s'.threads[t]);
  }

  lemma ApplyKeeps(s: State, t: Tid, a: Action)
    requires Inv(s) && Enabled(s, t, a)
    ensures Inv(Apply(s, t, a))
  {
    if a.Step? {
      OperationKeeps(s, t);
    } else {
      hide Held, Waiting, Posting, Operation;
      var s' := Apply(s, t, a);
      assert s'.threads == s.threads[t := s'.threads[t]];
      TotalsUpdate(s.threads, t, s'.threads[t]);
    }
  }

  // ---------------------------------------------------------------------------
  // Every run
  // ---------------------------------------------------------------------------

  ghost predicate Succeeds(s: State, s': State) {
    exists t, a :: Enabled(s, t, a) && s' == Apply(s, t, a)
  }

  ghost predicate IsRun(run: seq<State>, initial: nat) {
    && run != [] && Init(run[0], initial)
    && forall i | 0 <= i < |run| - 1 :: Succeeds(run[i], run[i + 1])
  }

  lemma InitHolds(s: State, initial: nat)
    requires Init(s, initial)
    ensures Inv(s)
  {
    SumZero(s.threads, HeldBy);
    SumZero(s.threads, WaitsBy);
    SumZero(s.threads, PostsBy);
  }

  lemma {:induction false} EveryRunKeepsInv(run: seq<State>, initial: nat, i: nat)
    requires IsRun(run, initial) && i < |run|
    ensures Inv(run[i])
  {
    if i == 0 {
      InitHolds(run[0], initial);
    } else {
      EveryRunKeepsInv(run, initial, i - 1);
      assert Succeeds(run[i - 1], run[i - 1 + 1]);
      var t, a :| Enabled(run[i - 1], t, a) && run[i] == Apply(run[i - 1], t, a);
      ApplyKeeps(run[i - 1], t, a);
    }
  }

  /** Permits are conserved, so no more are ever granted than there were and were signalled. */
  lemma PermitsAreConserved(run: seq<State>, initial: nat, i: nat)
    requires IsRun(run, initial) && i < |run|
    ensures var s := run[i];
            s.spent + Held(s.threads) + Positive(s.count) + s.kernel + Posting(s.threads) == s.signalled
  {
    EveryRunKeepsInv(run, initial, i);
  }

  /**
   Every thread without an answer is accounted for by the negative count, by a
   permit in the kernel, or by one that is about to be posted there.
   */
  lemma WaitersAreAccountedFor(run: seq<State>, initial: nat, i: nat)
    requires IsRun(run, initial) && i < |run|
    ensures Waiting(run[i].threads) == Positive(-run[i].count) + run[i].kernel + Posting(run[i].threads)
  {
    EveryRunKeepsInv(run, initial, i);
  }

  lemma WaiterIsCounted(ts: seq<Pc>, t: Tid)
    requires t < |ts|
    ensures Waiting(ts) >= WaitsBy(ts[t]) && Posting(ts) >= PostsBy(ts[t])
  {
    TotalsUpdate(ts, t, ts[t]);
  }

  /**
   No wakeup is lost. When no signaller is between its count and its posts, a
   sleeping thread finds a kernel permit unless the count shows it waiting, and the
   loop after a timeout always has a way out: what it tries next succeeds.
   */
  lemma NoWakeupIsLost(run: seq<State>, initial: nat, i: nat, t: Tid)
    requires IsRun(run, initial) && i < |run| && t < |run[i].threads|
    requires Posting(run[i].threads) == 0 && WaitsBy(run[i].threads[t]) == 1
    ensures run[i].kernel == 0 ==> run[i].count < 0
    ensures run[i].count >= 0 ==> run[i].kernel >= Waiting(run[i].threads) >= 1
    ensures run[i].threads[t].LateTry? && run[i].count >= 0 ==> !Operation(run[i], t).threads[t].LateLoad?
  {
    EveryRunKeepsInv(run, initial, i);
    WaiterIsCounted(run[i].threads, t);
  }

  lemma {:induction false} WaitingAtMostThreads(ts: seq<Pc>)
    ensures Waiting(ts) <= |ts|
  {
    if ts != [] { WaitingAtMostThreads(ts[1..]); }
  }

  /** A signal releases only threads that wait: the conversion of the number of releases to `int` is exact. */
  lemma ReleasesFitAnInt(run: seq<State>, initial: nat, i: nat, n: nat)
    requires IsRun(run, initial) && i < |run| && |run[i].threads| < 0x8000_0000
    ensures ToRelease(run[i].count, n) <= Waiting(run[i].threads) < 0x8000_0000
  {
    EveryRunKeepsInv(run, initial, i);
    WaitingAtMostThreads(run[i].threads);
  }

  // ---------------------------------------------------------------------------
  // Calls that run undisturbed
  // ---------------------------------------------------------------------------

  /** Thread `t` performs `n` operations by itself, or fewer when its call ends sooner or it has to sleep. */
  function Alone(s: State, t: Tid, n: nat): (s': State)
    requires t < |s.threads|
    ensures |s'.threads| == |s.threads|
    decreases n
  {
    if n == 0 || !Enabled(s, t, Step) then s else Alone(Operation(s, t), t, n - 1)
  }

  /**
   A call that runs undisturbed takes as many permits as it asks for and there are; only a waiting call that finds
   none goes on.
   */
  lemma UndisturbedWait(s: State, t: Tid, max: nat, timed: bool)
    requires t < |s.threads| && s.threads[t] == Idle(0)
    ensures var got := if Positive(s.count) < max then Positive(s.count) else max;
            && Alone(Apply(s, t, TryWaitMany(max)), t, 2) == s.(count := s.count - got).Go(t, Idle(got))
            && (got > 0 ==>
                  Alone(Apply(s, t, WaitMany(max, timed)), t, 2) == s.(count := s.count - got).Go(t, Idle(got)))
  {
    AloneTries(s, t, max, Finish);
    AloneTries(s, t, max, Block(timed));
  }

  lemma AloneTries(s: State, t: Tid, max: nat, k: Cont)
    requires t < |s.threads| && s.threads[t] == Idle(0)
    ensures var got := if Positive(s.count) < max then Positive(s.count) else max;
            (k.Finish? || got > 0) ==>
              Alone(s.Go(t, TryLoad(0, max, k)), t, 2) == s.(count := s.count - got).Go(t, Idle(got))
  {
    var s0 := s.Go(t, TryLoad(0, max, k));
    var s1 := Operation(s0, t);
    assert Alone(s0, t, 2) == Alone(s1, t, 1);
    if s.count > 0 {
      assert s1.threads[t] == TryCas(0, max, s.count, k);
      assert Alone(s1, t, 1) == Alone(Operation(s1, t), t, 0);
    } else if k.Finish? {
      assert s1.threads[t] == Idle(0);
    }
  }
}
