module SemaphoreCalls {
  /**
   The calls of `LightweightSemaphore` as the program text writes them, with other
   threads running between any two operations. `rounds` bounds how often a lost
   race is retried and how long a sleeping thread is watched; a call that is still
   running then reports `finished == false`.
   */

  import opened LightweightSemaphore
  import opened ThreadCounting

  /** What calls do to the shared words; `was` is the count before. */
  datatype Event =
    | Took(t: Tid, n: int, was: int)    // an exchange has lowered the count by `n`
    | FoundNone(t: Tid, was: int)       // `tryWaitMany` has seen that there is nothing to take
    | Added(t: Tid, n: int, was: int)   // a signal has raised the count
    | Posted(t: Tid)                    // a signal has posted to the kernel semaphore

  function Smaller(a: int, b: int): int { if a < b then a else b }

  /** What an action of thread `t` adds to the events. */
  function Events(s: State, t: Tid, a: Action): (es: seq<Event>)
    ensures |es| <= 1 && (es != [] ==> es[0].t == t)
  {
    if !(t < |s.threads| && (a.Step? || a.FailSpuriously?)) || !Enabled(s, t, a) then []
    else if a.FailSpuriously? then (if s.count <= 0 then [FoundNone(t, s.count)] else [])
    else
      match s.threads[t]
      case AddCount(n) => [Added(t, n, s.count)]
      case Post(_) => [Posted(t)]
      case TryLoad(_, _, _) => if s.count <= 0 then [FoundNone(t, s.count)] else []
      case TryCas(_, _, seen, _) =>
        if s.count == seen && seen > 0 then [Took(t, s.count - Operation(s, t).count, s.count)]
        else if s.count <= 0 then [FoundNone(t, s.count)]
        else []
      case SpinCas(_, _, seen, _) =>
        if s.count == seen && seen > 0 then [Took(t, s.count - Operation(s, t).count, s.count)] else []
      case _ => []
  }

  /** The events of one thread. */
  function Of(t: Tid, log: seq<Event>): seq<Event> {
    if log == [] then [] else Of(t, log[..|log| - 1]) + if log[|log| - 1].t == t then [log[|log| - 1]] else []
  }

  function Posts(t: Tid, k: int): seq<Event> { if k <= 0 then [] else Posts(t, k - 1) + [Posted(t)] }

  /** What the log says when `tryWaitMany` has seen the count. */
  function Seen(t: Tid, was: int): seq<Event> { if was <= 0 then [FoundNone(t, was)] else [] }

  lemma OfAppended(t: Tid, log: seq<Event>, e: Event)
    ensures Of(t, log + [e]) == Of(t, log) + if e.t == t then [e] else []
  {
    assert (log + [e])[..|log|] == log;
  }

  lemma EventsOf(t: Tid, u: Tid, log: seq<Event>, s: State, a: Action)
    ensures Of(t, log + Events(s, u, a)) == Of(t, log) + if t == u then Events(s, u, a) else []
  {
    hide Events;
    var es := Events(s, u, a);
    if es == [] {
      assert log + [] == log;
    } else {
      assert es == [es[0]];
      OfAppended(t, log, es[0]);
    }
  }

  class Semaphore {
    var m_count: int
    var m_sema: nat
    var threads: seq<Pc>
    ghost var signalled: nat
    ghost var spent: nat
    ghost var log: seq<Event>

    constructor (initialCount: nat, callers: nat)
      ensures Init(View(), initialCount) && Inv(View()) && |threads| == callers
    {
      m_count, m_sema, signalled, spent, log := initialCount, 0, initialCount, 0, [];
      threads := seq(callers, _ => Idle(0));
      new;
      InitHolds(View(), initialCount);
    }

    ghost function View(): State
      reads this
    {
      State(m_count, m_sema, threads, signalled, spent)
    }

    ghost predicate At(t: Tid, p: Pc)
      reads this
    {
      Inv(View()) && t < |threads| && threads[t] == p
    }

    /** Any other threads perform any number of their own operations. */
    method Others(t: Tid)
      requires Inv(View()) && t < |threads|
      modifies this
      ensures Inv(View()) && t < |threads| && threads[t] == old(threads)[t] && Of(t, log) == Of(t, old(log))
    {
      ghost var s := View();
      var steps: nat := *;
      while steps > 0
        invariant s == View() && Inv(s) && t < |threads| && threads[t] == old(threads)[t]
        invariant Of(t, log) == Of(t, old(log))
      {
        var u: nat := *;
        var a: Action := *;
        if u != t && 0 <= u < |threads| && Possible(a, threads[u], m_sema) {
          ApplyKeeps(s, u, a);
          EventsOf(t, u, log, s, a);
          s := Apply(s, u, a);
          Perform(u, a);
        }
        steps := steps - 1;
      }
    }

    /** One action of thread `t` on the shared words. */
    method Perform(t: Tid, a: Action)
      requires Enabled(View(), t, a)
      modifies this
      ensures View() == Apply(old(View()), t, a) && log == old(log) + Events(old(View()), t, a)
    {
      log := log + Events(View(), t, a);
      var p := threads[t];
      match a
      case TryWaitMany(max) => threads := threads[t := TryLoad(0, max, Finish)];
      case WaitMany(max, timed) => threads := threads[t := TryLoad(0, max, Block(timed))];
      case Signal(n) => threads := threads[t := AddCount(n)];
      case Spend(n) => spent := spent + n; threads := threads[t := Idle(p.permits - n)];
      case FailSpuriously => threads := threads[t := TryAgain(p.base, p.max, m_count, p.k)];
      case TimeOut => threads := threads[t := LateLoad(p.max)];
      case Step =>
        var was := m_count;
        match p
        case TryLoad(base, max, k) => threads := threads[t := TryAgain(base, max, was, k)];
        case TryCas(base, max, seen, k) =>
          if was == seen && seen > 0 {
            m_count := Remaining(seen, max);
            threads := threads[t := TryDone(base, max, seen - m_count, k)];
          } else {
            threads := threads[t := TryAgain(base, max, was, k)];
          }
        case SpinLoad(max, spin, timed) =>
          threads := threads[t := if was > 0 then SpinCas(max, spin, was, timed) else SpinAgain(max, spin, timed)];
        case SpinCas(max, spin, seen, timed) =>
          if was == seen && seen > 0 {
            m_count := Remaining(seen, max);
            threads := threads[t := Idle(seen - m_count)];
          } else {
            threads := threads[t := SpinAgain(max, spin, timed)];
          }
        case Decrement(max, timed) =>
          m_count := m_count - 1;
          threads := threads[t := if was > 0 then GotOne(max) else KernelWait(max, timed)];
        case KernelWait(max, _) => m_sema := m_sema - 1; threads := threads[t := GotOne(max)];
        case LateLoad(max) => threads := threads[t := if was >= 0 then LateTry(max) else LateCas(max, was)];
        case LateTry(max) =>
          if m_sema > 0 {
            m_sema := m_sema - 1;
            threads := threads[t := GotOne(max)];
          } else {
            threads := threads[t := LateLoad(max)];
          }
        case LateCas(max, seen) =>
          if was == seen {
            m_count := m_count + 1;
            threads := threads[t := Idle(0)];
          } else {
            threads := threads[t := LateLoad(max)];
          }
        case AddCount(n) =>
          m_count, signalled := m_count + n, signalled + n;
          threads := threads[t := PostAll(ToRelease(was, n))];
        case Post(left) => m_sema := m_sema + 1; threads := threads[t := PostAll(left - 1)];
    }

    /** The next operation of thread `t`, which keeps the accounts. */
    method Next(t: Tid)
      requires Inv(View()) && Enabled(View(), t, Step)
      modifies this
      ensures Inv(View()) && View() == Operation(old(View()), t)
      ensures Of(t, log) == Of(t, old(log)) + Events(old(View()), t, Step)
    {
      ApplyKeeps(View(), t, Step);
      EventsOf(t, t, log, View(), Step);
      Perform(t, Step);
    }

    /** `m_count.load()` of `tryWaitMany`. */
    method LoadCount(t: Tid, base: nat, max: nat, k: Cont) returns (was: int)
      requires At(t, TryLoad(base, max, k))
      modifies this
      ensures At(t, TryAgain(base, max, was, k)) && Of(t, log) == Of(t, old(log)) + Seen(t, was)
    {
      hide Inv, Of;
      was := m_count;
      Next(t);
    }

    /** The weak exchange of `tryWaitMany`, which may fail for no reason, and gives the count it found. */
    method ExchangeCount(t: Tid, base: nat, max: nat, seen: int, k: Cont) returns (ok: bool, was: int)
      requires At(t, TryCas(base, max, seen, k)) && seen > 0
      modifies this
      ensures ok ==>
                && was == seen && At(t, TryDone(base, max, Smaller(seen, max), k))
                && Of(t, log) == Of(t, old(log)) + [Took(t, Smaller(seen, max), seen)]
      ensures !ok ==> At(t, TryAgain(base, max, was, k)) && Of(t, log) == Of(t, old(log)) + Seen(t, was)
    {
      hide Inv, Of;
      was := m_count;
      var spurious: bool := *;
      ok := !spurious && was == seen;
      var a := if spurious then FailSpuriously else Step;
      ApplyKeeps(View(), t, a);
      EventsOf(t, t, log, View(), a);
      Perform(t, a);
    }

    /**
     Takes the smaller of `max` and the count `was`, in one exchange; or nothing, once the count was seen not to
     be positive.
     */
    method TryWaitMany(t: Tid, base: nat, max: nat, k: Cont, rounds: nat)
      returns (finished: bool, got: nat, ghost was: int)
      requires At(t, TryLoad(base, max, k))
      modifies this
      ensures Inv(View()) && t < |threads| && got <= max
      ensures finished ==> threads[t] == TryDone(base, max, got, k)
      ensures !finished ==> Of(t, log) == Of(t, old(log))
      ensures finished && was > 0 ==> got == Smaller(was, max) && Of(t, log) == Of(t, old(log)) + [Took(t, got, was)]
      ensures finished && was <= 0 ==> got == 0 && Of(t, log) == Of(t, old(log)) + [FoundNone(t, was)]
    {
      hide Inv, Of, Semaphore.View;
      Others(t);
      var oldCount := LoadCount(t, base, max, k);
      var left := rounds;
      while oldCount > 0 && left > 0
        invariant At(t, TryAgain(base, max, oldCount, k)) && Of(t, log) == Of(t, old(log)) + Seen(t, oldCount)
        decreases left
      {
        Others(t);
        var newCount := if oldCount > max then oldCount - max else 0;
        var ok, seen := ExchangeCount(t, base, max, oldCount, k);
        if ok { return true, oldCount - newCount, oldCount; }
        oldCount := seen;
        left := left - 1;
      }
      finished, got, was := oldCount <= 0, 0, oldCount;
    }

    /** Spins for a while before the thread commits itself to waiting. */
    method Spin(t: Tid, max: nat, timed: bool) returns (ok: bool, got: nat)
      requires At(t, SpinLoad(max, SPIN, timed)) && max > 0
      modifies this
      ensures ok ==> 1 <= got <= max
      ensures At(t, if ok then Idle(got) else Decrement(max, timed))
    {
      hide Inv, Of, Events;
      var spin := SPIN;
      while spin > 0
        invariant At(t, if spin > 0 then SpinLoad(max, spin, timed) else Decrement(max, timed))
      {
        Others(t);
        var oldCount := m_count;
        Next(t);
        if oldCount > 0 {
          Others(t);
          var same := m_count == oldCount;
          Next(t);
          if same {
            var newCount := if oldCount > max then oldCount - max else 0;
            return true, oldCount - newCount;
          }
        }
        spin := spin - 1;
      }
      ok, got := false, 0;
    }

    /** Sleeps on the kernel semaphore, for good or until the wait times out. */
    method Sleep(t: Tid, max: nat, timed: bool, rounds: nat) returns (finished: bool, obtained: bool)
      requires At(t, KernelWait(max, timed)) && max > 0
      modifies this
      ensures Inv(View()) && t < |threads|
      ensures finished ==> threads[t] == (if obtained then GotOne(max) else Idle(0)) && (timed || obtained)
    {
      hide Inv, Of, Events;
      Others(t);
      var giveUp: bool := *;
      if timed && giveUp {
        ApplyKeeps(View(), t, TimeOut);
        Perform(t, TimeOut);
        finished, obtained := AfterTimeout(t, max, rounds);
      } else if m_sema == 0 {
        finished, obtained := false, false;
      } else {
        Next(t);
        finished, obtained := true, true;
      }
    }

    method WaitManyWithPartialSpinning(t: Tid, max: nat, timed: bool, rounds: nat) returns (finished: bool, got: nat)
      requires At(t, SpinLoad(max, SPIN, timed)) && max > 0
      modifies this
      ensures Inv(View()) && t < |threads|
      ensures finished ==> threads[t] == Idle(got) && got <= max && (timed || got >= 1)
    {
      hide Inv, Of, Events;
      var ok;
      ok, got := Spin(t, max, timed);
      if ok { return true, got; }
      Others(t);
      var oldCount := m_count;
      Next(t);
      if oldCount <= 0 {
        var done, obtained := Sleep(t, max, timed, rounds);
        if !done || !obtained { return done, 0; }
      }
      if max > 1 {
        var more;
        ghost var was;
        finished, more, was := TryWaitMany(t, 1, max - 1, Finish, rounds);
        got := 1 + more;
      } else {
        finished, got := true, 1;
      }
    }

    /** The loop that readjusts the count once a timed wait has given up. */
    method AfterTimeout(t: Tid, max: nat, rounds: nat) returns (finished: bool, obtained: bool)
      requires At(t, LateLoad(max)) && max > 0
      modifies this
      ensures Inv(View()) && t < |threads|
      ensures finished ==> threads[t] == if obtained then GotOne(max) else Idle(0)
    {
      hide Inv, Of, Events;
      var left := rounds;
      while left > 0
        invariant At(t, LateLoad(max))
      {
        Others(t);
        var oldCount := m_count;
        Next(t);
        Others(t);
        if oldCount >= 0 {
          var available := m_sema > 0;
          Next(t);
          if available { return true, true; }
        } else {
          var ok := m_count == oldCount;
          Next(t);
          if ok { return true, false; }
        }
        left := left - 1;
      }
      finished, obtained := false, false;
    }

    /** Acquires at most `max` permits, and at least one unless the wait is timed. */
    method WaitMany(t: Tid, max: nat, timed: bool, rounds: nat) returns (finished: bool, got: nat)
      requires At(t, Idle(0))
      modifies this
      ensures Inv(View()) && t < |threads|
      ensures finished ==> threads[t] == Idle(got) && got <= max && (timed || max == 0 || got >= 1)
    {
      hide Inv, Of, Events;
      ApplyKeeps(View(), t, Action.WaitMany(max, timed));
      Perform(t, Action.WaitMany(max, timed));
      ghost var was;
      finished, got, was := TryWaitMany(t, 0, max, Block(timed), rounds);
      if finished && got == 0 && max > 0 {
        finished, got := WaitManyWithPartialSpinning(t, max, timed, rounds);
      }
    }

    /** `m_sema.signal(count)`. */
    method PostMany(t: Tid, count: nat)
      requires At(t, PostAll(count))
      modifies this
      ensures At(t, Idle(0)) && Of(t, log) == Of(t, old(log)) + Posts(t, count)
    {
      hide Inv;
      var left := count;
      while left > 0
        invariant At(t, PostAll(left)) && 0 <= left <= count
        invariant Of(t, log) == Of(t, old(log)) + Posts(t, count - left)
      {
        Others(t);
        Next(t);
        left := left - 1;
      }
    }

    /**
     Adds `n` to the count once, and posts once for every waiter that the count before, `was`, and `n`
     allow to release; nothing else.
     */
    method Signal(t: Tid, n: nat) returns (ghost was: int)
      requires At(t, Idle(0))
      modifies this
      ensures At(t, Idle(0))
      ensures Of(t, log) == Of(t, old(log)) + ([Added(t, n, was)] + Posts(t, ToRelease(was, n)))
    {
      hide Inv, Of;
      ApplyKeeps(View(), t, Action.Signal(n));
      Perform(t, Action.Signal(n));
      assert log == old(log);
      Others(t);
      var toRelease := ToRelease(m_count, n);
      was := m_count;
      Next(t);
      if toRelease > 0 { PostMany(t, toRelease); }
    }
  }

  /** `Enabled`, told from what a scheduler sees. */
  predicate Possible(a: Action, p: Pc, kernel: nat) {
    match a
    case TryWaitMany(_) => p == Idle(0)
    case WaitMany(_, _) => p == Idle(0)
    case Signal(_) => p == Idle(0)
    case Spend(n) => p.Idle? && n <= p.permits
    case Step => !p.Idle? && (p.KernelWait? ==> kernel > 0)
    case FailSpuriously => p.TryCas?
    case TimeOut => p.KernelWait? && p.timed
  }
}
