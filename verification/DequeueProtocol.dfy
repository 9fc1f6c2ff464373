module DequeueProtocol {
  /**
   How consumers claim elements of one producer's sub-queue: the optimistic
   protocol over `tailIndex`, `headIndex`, `dequeueOptimisticCount` and
   `dequeueOvercommit`, with one producer and any number of consumers.

   `dequeue` is `dequeue_bulk` with a maximum of one as far as these counters go.
   The counters are unbounded here; the module `WrappingArithmetic` relates them to the
   64-bit words of the program.
   */

  import opened ThreadCounting

  /** The atomic operation a consumer performs next. `o` is the overcommit it loaded. */
  datatype Pc =
    | Idle
    | LoadTail(max: nat)
    | LoadOver(max: nat, tail: nat)
    | LoadCount(max: nat, tail: nat, o: nat)
    | Reserve(want: nat, o: nat)                 // fetch_add on the optimistic count
    | Recheck(want: nat, o: nat, ticket: nat)    // reload the tail
    | GiveBack(want: nat, take: nat, ticket: nat)  // overcommit what cannot be had
    | Take(take: nat)                            // fetch_add on the head
    | GiveUp(want: nat, ticket: nat)             // overcommit everything

  /** A consumer was given the elements from `first` on. */
  datatype Claim = Claim(t: Tid, first: nat, count: nat)

  /** The four counters, the consumers, and the claims made so far in the order of the head's updates. */
  datatype State = State(tail: nat, head: nat, opt: nat, over: nat, threads: seq<Pc>, log: seq<Claim>)
  {
    function Go(t: Tid, p: Pc): State
      requires t < |threads|
    {
      this.(threads := threads[t := p])
    }
  }

  datatype Action = Publish(n: nat) | Begin(t: Tid, max: nat) | Step(t: Tid)

  predicate Init(s: State) {
    && s.tail == s.head == s.opt == s.over == 0 && s.log == []
    && (forall t | 0 <= t < |s.threads| :: s.threads[t].Idle?)
  }

  predicate Enabled(s: State, a: Action) {
    match a
    case Publish(n) => true
    case Begin(t, max) => t < |s.threads| && s.threads[t].Idle?
    case Step(t) => t < |s.threads| && !s.threads[t].Idle?
  }

  function Apply(s: State, a: Action): State
    requires Enabled(s, a)
  {
    match a
    case Publish(n) => s.(tail := s.tail + n)
    case Begin(t, max) => s.Go(t, LoadTail(max))
    case Step(t) => Atomic(s, t)
  }

  function Min(a: nat, b: nat): nat { if a < b then a else b }

  function Atomic(s: State, t: Tid): State
    requires t < |s.threads| && !s.threads[t].Idle?
  {
    match s.threads[t]
    case LoadTail(max) => s.Go(t, LoadOver(max, s.tail))
    case LoadOver(max, tail) => s.Go(t, LoadCount(max, tail, s.over))
    case LoadCount(max, tail, o) =>
      if s.opt - o < tail then s.Go(t, Reserve(Min(tail - (s.opt - o), max), o)) else s.Go(t, Idle)
    case Reserve(want, o) => s.(opt := s.opt + want).Go(t, Recheck(want, o, s.opt))
    case Recheck(want, o, ticket) =>
      if ticket - o < s.tail then
        var take := Min(want, s.tail - (ticket - o));
        s.Go(t, if take < want then GiveBack(want, take, ticket) else Take(take))
      else s.Go(t, GiveUp(want, ticket))
    case GiveBack(want, take, _) =>
      s.(over := s.over + if take < want then want - take else 0).Go(t, Take(take))
    case Take(n) => s.(head := s.head + n, log := s.log + [Claim(t, s.head, n)]).Go(t, Idle)
    case GiveUp(want, _) => s.(over := s.over + want).Go(t, Idle)
  }

  // ---------------------------------------------------------------------------
  // The invariant
  // ---------------------------------------------------------------------------

  /** Reservations that neither moved the head nor were given back yet. */
  function InFlight(p: Pc): nat {
    match p
    case Recheck(want, _, _) => want
    case GiveBack(want, _, _) => want
    case Take(take) => take
    case GiveUp(want, _) => want
    case _ => 0
  }

  /** Elements a consumer is entitled to but has not claimed yet. */
  function Entitled(p: Pc): nat {
    match p
    case GiveBack(_, take, _) => take
    case Take(take) => take
    case _ => 0
  }

  ghost function Reserved(ts: seq<Pc>): nat { Sum(ts, InFlight) }

  ghost function Owed(ts: seq<Pc>): nat { Sum(ts, Entitled) }

  lemma TotalsUpdate(ts: seq<Pc>, t: Tid, p: Pc)
    requires t < |ts|
    ensures Reserved(ts[t := p]) + InFlight(ts[t]) == Reserved(ts) + InFlight(p)
    ensures Owed(ts[t := p]) + Entitled(ts[t]) == Owed(ts) + Entitled(p)
    ensures Reserved(ts) >= InFlight(ts[t]) && Owed(ts) >= Entitled(ts[t])
  {
    SumUpdate(ts, t, p, InFlight);
    SumUpdate(ts, t, p, Entitled);
  }

  /** The reserved tickets whose outcome a consumer has not settled yet. */
  function Tickets(p: Pc): set<nat> {
    match p
    case Recheck(want, _, ticket) => Range(ticket, ticket + want)
    case GiveBack(want, take, ticket) => if take <= want then Range(ticket + take, ticket + want) else {}
    case GiveUp(want, ticket) => Range(ticket, ticket + want)
    case _ => {}
  }

  /** The tickets a consumer holds are its own, and an overcommit value it loaded earlier may only be too low. */
  ghost predicate ThreadOk(opt: nat, over: nat, won: set<nat>, lost: set<nat>, p: Pc) {
    && Tickets(p) <= Range(0, opt) && Tickets(p) !! won && Tickets(p) !! lost
    && match p
       case LoadCount(_, _, o) => o <= over
       case Reserve(_, o) => o <= over
       case Recheck(want, o, ticket) => o <= |lost * Range(0, ticket)| && ticket + want <= opt
       case GiveBack(want, take, _) => take <= want
       case _ => true
  }

  ghost predicate Separate(ts: seq<Pc>) {
    forall t, u | 0 <= t < u < |ts| :: Tickets(ts[t]) !! Tickets(ts[u])
  }

  /** The claims follow one another from the first element up to the head. */
  ghost predicate Contiguous(log: seq<Claim>, head: nat) {
    if log == [] then head == 0
    else var c := log[|log| - 1]; c.first + c.count == head && Contiguous(log[..|log| - 1], c.first)
  }

  /** The counters count tickets: won, given back, and still undecided. */
  ghost predicate CountsOk(s: State, won: set<nat>, lost: set<nat>) {
    && |won| == s.head + Owed(s.threads)
    && |lost| == s.over
    && s.opt == s.head + s.over + Reserved(s.threads)
  }

  ghost predicate TicketsOk(s: State, won: set<nat>, lost: set<nat>, top: nat) {
    && won <= Range(0, top) && lost <= Range(0, s.opt) && won !! lost && top <= s.opt
    && top <= s.tail + |lost * Range(0, top)|
    && (forall t | 0 <= t < |s.threads| :: ThreadOk(s.opt, s.over, won, lost, s.threads[t]))
    && Separate(s.threads)
  }

  /**
   `won` and `lost` are the tickets that turned into entitlements and that were
   given back; no ticket at `top` or above has won.
   */
  ghost predicate InvWith(s: State, won: set<nat>, lost: set<nat>, top: nat) {
    CountsOk(s, won, lost) && TicketsOk(s, won, lost, top) && Contiguous(s.log, s.head)
  }

  ghost predicate Inv(s: State) { exists won, lost, top :: InvWith(s, won, lost, top) }

  /** However stale the values consumers decided on, no more was won than was published. */
  lemma WonAtMostTail(s: State, won: set<nat>, lost: set<nat>, top: nat)
    requires InvWith(s, won, lost, top)
    ensures |won| <= s.tail
  {
    var below := lost * Range(0, top);
    assert won !! below && won + below <= Range(0, top);
    SubsetSize(won + below, Range(0, top));
    RangeSize(0, top);
    assert |won + below| == |won| + |below|;
  }

  /** A step that settles nothing and reserves nothing. */
  lemma QuietKeeps(s: State, t: Tid, p: Pc, won: set<nat>, lost: set<nat>, top: nat)
    requires InvWith(s, won, lost, top) && t < |s.threads|
    requires InFlight(p) == InFlight(s.threads[t]) && Entitled(p) == Entitled(s.threads[t])
    requires Tickets(p) == Tickets(s.threads[t]) && ThreadOk(s.opt, s.over, won, lost, p)
    ensures InvWith(s.Go(t, p), won, lost, top)
  {
    hide Reserved, Owed;
    TotalsUpdate(s.threads, t, p);
  }

  lemma RangeSplit(lo: nat, mid: nat, hi: nat)
    requires lo <= mid <= hi
    ensures Range(lo, hi) == Range(lo, mid) + Range(mid, hi) && Range(lo, mid) !! Range(mid, hi)
    ensures |Range(lo, mid)| == mid - lo
  {
    RangeSize(lo, mid);
    forall i | i in Range(lo, hi)
      ensures i in Range(lo, mid) + Range(mid, hi)
    {
      assert Within(i, lo, mid) || Within(i, mid, hi);
    }
    forall i | i in Range(lo, mid) + Range(mid, hi)
      ensures i in Range(lo, hi)
    {
      assert Within(i, lo, hi);
    }
  }

  lemma ThreadStaysOk(opt: nat, more: nat, over: nat, won: set<nat>, lost: set<nat>, p: Pc)
    requires ThreadOk(opt, over, won, lost, p)
    ensures ThreadOk(opt + more, over, won, lost, p)
    ensures Tickets(p) !! Range(opt, opt + more)
  {
    RangeSplit(0, opt, opt + more);
  }

  lemma FreshTicketsOk(opt: nat, over: nat, want: nat, o: nat, won: set<nat>, lost: set<nat>, top: nat)
    requires won <= Range(0, top) && top <= opt && lost <= Range(0, opt) && |lost| == over && o <= over
    ensures ThreadOk(opt + want, over, won, lost, Recheck(want, o, opt))
    ensures lost <= Range(0, opt + want)
  {
    RangeSplit(0, opt, opt + want);
    RangeSplit(0, top, opt);
    assert lost * Range(0, opt) == lost;
  }

  lemma SeparateGrows(ts: seq<Pc>, t: Tid, p: Pc)
    requires Separate(ts) && t < |ts|
    requires forall u | 0 <= u < |ts| :: Tickets(ts[u]) !! Tickets(p)
    ensures Separate(ts[t := p])
  {
  }

  lemma ReserveTickets(s: State, t: Tid, want: nat, o: nat, won: set<nat>, lost: set<nat>, top: nat)
    requires TicketsOk(s, won, lost, top) && |lost| == s.over && t < |s.threads| && s.threads[t] == Reserve(want, o)
    ensures TicketsOk(s.(opt := s.opt + want).Go(t, Recheck(want, o, s.opt)), won, lost, top)
  {
    var p := Recheck(want, o, s.opt);
    assert ThreadOk(s.opt, s.over, won, lost, s.threads[t]);
    assert o <= s.over && Tickets(p) == Range(s.opt, s.opt + want);
    hide Range, ThreadOk, Separate, Tickets;
    FreshTicketsOk(s.opt, s.over, want, o, won, lost, top);
    forall u | 0 <= u < |s.threads|
      ensures ThreadOk(s.opt + want, s.over, won, lost, s.threads[u])
      ensures Tickets(s.threads[u]) !! Tickets(p)
    {
      ThreadStaysOk(s.opt, want, s.over, won, lost, s.threads[u]);
    }
    SeparateGrows(s.threads, t, p);
  }

  lemma ReserveKeeps(s: State, t: Tid, want: nat, o: nat, won: set<nat>, lost: set<nat>, top: nat)
    requires InvWith(s, won, lost, top) && t < |s.threads| && s.threads[t] == Reserve(want, o)
    ensures InvWith(s.(opt := s.opt + want).Go(t, Recheck(want, o, s.opt)), won, lost, top)
  {
    ReserveTickets(s, t, want, o, won, lost, top);
    hide TicketsOk, Contiguous, Reserved, Owed;
    TotalsUpdate(s.threads, t, Recheck(want, o, s.opt));
  }

  function Max(a: nat, b: nat): nat { if a < b then b else a }

  /** The heart of the protocol: the highest winning ticket bounds all that was won. */
  lemma WinKeepsBound(tail: nat, won: set<nat>, lost: set<nat>, top: nat, ticket: nat, o: nat, take: nat)
    requires won <= Range(0, top) && top <= tail + |lost * Range(0, top)|
    requires o <= |lost * Range(0, ticket)| && o <= ticket && ticket - o + take <= tail
    ensures won + Range(ticket, ticket + take) <= Range(0, Max(top, ticket + take))
    ensures Max(top, ticket + take) <= tail + |lost * Range(0, Max(top, ticket + take))|
  {
    SubsetSize(lost * Range(0, ticket), lost * Range(0, ticket + take));
  }

  lemma LostBelowTicket(lost: set<nat>, ticket: nat)
    ensures |lost * Range(0, ticket)| <= ticket
  {
    SubsetSize(lost * Range(0, ticket), Range(0, ticket));
    RangeSize(0, ticket);
  }

  /** Where a consumer goes when the reloaded tail grants it `take` of the `want` elements. */
  function AfterWin(want: nat, take: nat, ticket: nat): Pc {
    if take < want then GiveBack(want, take, ticket) else Take(take)
  }

  lemma SeparateShrinks(ts: seq<Pc>, t: Tid, p: Pc)
    requires Separate(ts) && t < |ts| && Tickets(p) <= Tickets(ts[t])
    ensures Separate(ts[t := p])
  {
  }

  lemma OthersAfterWin(s: State, t: Tid, won: set<nat>, lost: set<nat>, gain: set<nat>)
    requires t < |s.threads| && Separate(s.threads) && gain <= Tickets(s.threads[t])
    requires forall u | 0 <= u < |s.threads| :: ThreadOk(s.opt, s.over, won, lost, s.threads[u])
    ensures forall u | 0 <= u < |s.threads| && u != t :: ThreadOk(s.opt, s.over, won + gain, lost, s.threads[u])
  {
    forall u | 0 <= u < |s.threads| && u != t
      ensures ThreadOk(s.opt, s.over, won + gain, lost, s.threads[u])
    {
      assert u < t ==> Tickets(s.threads[u]) !! Tickets(s.threads[t]);
      assert t < u ==> Tickets(s.threads[t]) !! Tickets(s.threads[u]);
    }
  }

  lemma WinTickets(s: State, t: Tid, want: nat, o: nat, ticket: nat, take: nat, won: set<nat>, lost: set<nat>, top: nat)
    requires TicketsOk(s, won, lost, top) && t < |s.threads| && s.threads[t] == Recheck(want, o, ticket)
    requires ticket - o + take <= s.tail && take <= want
    ensures var gain := Range(ticket, ticket + take);
            && won !! gain
            && TicketsOk(s.Go(t, AfterWin(want, take, ticket)), won + gain, lost, Max(top, ticket + take))
  {
    hide Range;
    var p, gain := AfterWin(want, take, ticket), Range(ticket, ticket + take);
    assert ThreadOk(s.opt, s.over, won, lost, s.threads[t]);
    LostBelowTicket(lost, ticket);
    WinKeepsBound(s.tail, won, lost, top, ticket, o, take);
    RangeSplit(ticket, ticket + take, ticket + want);
    OthersAfterWin(s, t, won, lost, gain);
    SeparateShrinks(s.threads, t, p);
  }

  lemma WinKeeps(s: State, t: Tid, want: nat, o: nat, ticket: nat, take: nat, won: set<nat>, lost: set<nat>, top: nat)
    requires InvWith(s, won, lost, top) && t < |s.threads| && s.threads[t] == Recheck(want, o, ticket)
    requires ticket - o + take <= s.tail && take <= want
    ensures InvWith(s.Go(t, AfterWin(want, take, ticket)), won + Range(ticket, ticket + take), lost,
            Max(top, ticket + take))
  {
    WinTickets(s, t, want, o, ticket, take, won, lost, top);
    hide TicketsOk, Contiguous, Reserved, Owed;
    var p := AfterWin(want, take, ticket);
    RangeSize(ticket, ticket + take);
    TotalsUpdate(s.threads, t, p);
  }

  lemma LoseTickets(s: State, t: Tid, p: Pc, from: nat, to: nat, won: set<nat>, lost: set<nat>, top: nat)
    requires TicketsOk(s, won, lost, top) && t < |s.threads| && from <= to
    requires Tickets(s.threads[t]) == Range(from, to) && (p.Take? || p.Idle?)
    ensures lost !! Range(from, to)
    ensures TicketsOk(s.(over := s.over + (to - from)).Go(t, p), won, lost + Range(from, to), top)
  {
    hide Range;
    var s', lost' := s.(over := s.over + (to - from)).Go(t, p), lost + Range(from, to);
    assert ThreadOk(s.opt, s.over, won, lost, s.threads[t]);
    SubsetSize(lost * Range(0, top), lost' * Range(0, top));
    forall u | 0 <= u < |s.threads|
      ensures ThreadOk(s'.opt, s'.over, won, lost', s'.threads[u])
    {
      assert ThreadOk(s.opt, s.over, won, lost, s.threads[u]);
      assert u < t ==> Tickets(s.threads[u]) !! Tickets(s.threads[t]);
      assert t < u ==> Tickets(s.threads[t]) !! Tickets(s.threads[u]);
      if s.threads[u].Recheck? {
        SubsetSize(lost * Range(0, s.threads[u].ticket), lost' * Range(0, s.threads[u].ticket));
      }
    }
  }

  /** Giving reservations back: the tickets `from` up to `to` are lost for good. */
  lemma LoseKeeps(s: State, t: Tid, p: Pc, from: nat, to: nat, won: set<nat>, lost: set<nat>, top: nat)
    requires InvWith(s, won, lost, top) && t < |s.threads| && from <= to
    requires Tickets(s.threads[t]) == Range(from, to) && (p.Take? || p.Idle?)
    requires InFlight(p) + (to - from) == InFlight(s.threads[t]) && Entitled(p) == Entitled(s.threads[t])
    ensures InvWith(s.(over := s.over + (to - from)).Go(t, p), won, lost + Range(from, to), top)
  {
    LoseTickets(s, t, p, from, to, won, lost, top);
    hide TicketsOk, Contiguous, Reserved, Owed;
    RangeSize(from, to);
    TotalsUpdate(s.threads, t, p);
  }

  lemma TakeKeeps(s: State, t: Tid, n: nat, won: set<nat>, lost: set<nat>, top: nat)
    requires InvWith(s, won, lost, top) && t < |s.threads| && s.threads[t] == Take(n)
    ensures InvWith(Atomic(s, t), won, lost, top)
  {
    var s' := Atomic(s, t);
    hide Reserved, Owed;
    TotalsUpdate(s.threads, t, Idle);
    assert s'.log[..|s'.log| - 1] == s.log;
  }

  lemma ThreadIsOk(s: State, t: Tid, won: set<nat>, lost: set<nat>, top: nat)
    requires InvWith(s, won, lost, top) && t < |s.threads|
    ensures ThreadOk(s.opt, s.over, won, lost, s.threads[t])
    ensures s.over <= s.opt
  {
  }

  lemma LoadStep(s: State, t: Tid, won: set<nat>, lost: set<nat>, top: nat)
    requires InvWith(s, won, lost, top) && t < |s.threads|
    requires s.threads[t].LoadTail? || s.threads[t].LoadOver? || s.threads[t].LoadCount?
    ensures Inv(Atomic(s, t))
  {
    ThreadIsOk(s, t, won, lost, top);
    hide InvWith;
    QuietKeeps(s, t, Atomic(s, t).threads[t], won, lost, top);
  }

  lemma RecheckStep(s: State, t: Tid, want: nat, o: nat, ticket: nat, won: set<nat>, lost: set<nat>, top: nat)
    requires InvWith(s, won, lost, top) && t < |s.threads| && s.threads[t] == Recheck(want, o, ticket)
    ensures Inv(Atomic(s, t))
  {
    ThreadIsOk(s, t, won, lost, top);
    hide InvWith;
    LostBelowTicket(lost, ticket);
    if ticket - o < s.tail {
      WinKeeps(s, t, want, o, ticket, Min(want, s.tail - (ticket - o)), won, lost, top);
    } else {
      QuietKeeps(s, t, GiveUp(want, ticket), won, lost, top);
    }
  }

  lemma GiveBackStep(s: State, t: Tid, want: nat, take: nat, ticket: nat, won: set<nat>, lost: set<nat>, top: nat)
    requires InvWith(s, won, lost, top) && t < |s.threads| && s.threads[t] == GiveBack(want, take, ticket)
             && take <= want
    ensures Inv(s.(over := s.over + (want - take)).Go(t, Take(take)))
  {
    hide InvWith, Range, ThreadOk;
    LoseKeeps(s, t, Take(take), ticket + take, ticket + want, won, lost, top);
  }

  lemma TakesPart(s: State, t: Tid, won: set<nat>, lost: set<nat>, top: nat)
    requires InvWith(s, won, lost, top) && t < |s.threads| && s.threads[t].GiveBack?
    ensures s.threads[t].take <= s.threads[t].want
  {
    assert ThreadOk(s.opt, s.over, won, lost, s.threads[t]);
  }

  lemma GiveUpStep(s: State, t: Tid, want: nat, ticket: nat, won: set<nat>, lost: set<nat>, top: nat)
    requires InvWith(s, won, lost, top) && t < |s.threads| && s.threads[t] == GiveUp(want, ticket)
    ensures Inv(Atomic(s, t))
  {
    hide InvWith, Range;
    LoseKeeps(s, t, Idle, ticket, ticket + want, won, lost, top);
  }

  lemma AtomicKeeps(s: State, t: Tid, won: set<nat>, lost: set<nat>, top: nat)
    requires InvWith(s, won, lost, top) && t < |s.threads| && !s.threads[t].Idle?
    ensures Inv(Atomic(s, t))
  {
    hide InvWith;
    match s.threads[t]
    case LoadTail(_) => LoadStep(s, t, won, lost, top);
    case LoadOver(_, _) => LoadStep(s, t, won, lost, top);
    case LoadCount(_, _, _) => LoadStep(s, t, won, lost, top);
    case Reserve(want, o) => ReserveKeeps(s, t, want, o, won, lost, top);
    case Recheck(want, o, ticket) => RecheckStep(s, t, want, o, ticket, won, lost, top);
    case GiveBack(want, take, ticket) =>
      TakesPart(s, t, won, lost, top);
      GiveBackStep(s, t, want, take, ticket, won, lost, top);
    case Take(n) => TakeKeeps(s, t, n, won, lost, top);
    case GiveUp(want, ticket) => GiveUpStep(s, t, want, ticket, won, lost, top);
  }

  lemma PublishKeeps(s: State, n: nat, won: set<nat>, lost: set<nat>, top: nat)
    requires InvWith(s, won, lost, top)
    ensures Inv(s.(tail := s.tail + n))
  {
    hide Range, Reserved, Owed, Contiguous, Tickets;
    assert InvWith(s.(tail := s.tail + n), won, lost, top);
  }

  lemma BeginKeeps(s: State, t: Tid, max: nat, won: set<nat>, lost: set<nat>, top: nat)
    requires InvWith(s, won, lost, top) && t < |s.threads| && s.threads[t].Idle?
    ensures Inv(s.Go(t, LoadTail(max)))
  {
    ThreadIsOk(s, t, won, lost, top);
    hide InvWith;
    QuietKeeps(s, t, LoadTail(max), won, lost, top);
  }

  lemma ApplyKeeps(s: State, a: Action)
    requires Inv(s) && Enabled(s, a)
    ensures Inv(Apply(s, a))
  {
    var won, lost, top :| InvWith(s, won, lost, top);
    hide InvWith, Inv, Atomic;
    match a
    case Publish(n) => PublishKeeps(s, n, won, lost, top);
    case Begin(t, max) => BeginKeeps(s, t, max, won, lost, top);
    case Step(t) => AtomicKeeps(s, t, won, lost, top);
  }

  // ---------------------------------------------------------------------------
  // Every run
  // ---------------------------------------------------------------------------

  ghost predicate Succeeds(s: State, s': State) {
    exists a :: Enabled(s, a) && s' == Apply(s, a)
  }

  ghost predicate IsRun(run: seq<State>) {
    && run != [] && Init(run[0])
    && forall i | 0 <= i < |run| - 1 :: Succeeds(run[i], run[i + 1])
  }

  lemma {:induction false} EveryRunKeepsInv(run: seq<State>, i: nat)
    requires IsRun(run) && i < |run|
    ensures Inv(run[i])
  {
    if i == 0 {
      SumZero(run[0].threads, InFlight);
      SumZero(run[0].threads, Entitled);
      assert InvWith(run[0], {}, {}, 0);
    } else {
      EveryRunKeepsInv(run, i - 1);
      assert Succeeds(run[i - 1], run[i - 1 + 1]);
      var a :| Enabled(run[i - 1], a) && run[i] == Apply(run[i - 1], a);
      ApplyKeeps(run[i - 1], a);
    }
  }

  /**
   The head never passes the tail, not even once all entitlements are claimed,
   and the optimistic count is always the head plus what was and will be settled.
   */
  lemma HeadNeverPassesTail(run: seq<State>, i: nat)
    requires IsRun(run) && i < |run|
    ensures run[i].head + Owed(run[i].threads) <= run[i].tail
    ensures run[i].opt == run[i].head + run[i].over + Reserved(run[i].threads)
  {
    EveryRunKeepsInv(run, i);
    var won, lost, top :| InvWith(run[i], won, lost, top);
    WonAtMostTail(run[i], won, lost, top);
  }

  lemma {:induction false} ClaimsAreDisjoint(log: seq<Claim>, head: nat, j: nat, k: nat)
    requires Contiguous(log, head) && j <= k < |log|
    ensures log[k].first + log[k].count <= head
    ensures j < k ==> log[j].first + log[j].count <= log[k].first
  {
    var c, rest := log[|log| - 1], log[..|log| - 1];
    if k < |log| - 1 {
      ClaimsAreDisjoint(rest, c.first, j, k);
    } else if j < k {
      ClaimsAreDisjoint(rest, c.first, j, j);
    }
  }

  /** Every claim is of published elements, and a later claim lies wholly behind an earlier one. */
  lemma EachElementIsClaimedOnce(run: seq<State>, i: nat, j: nat, k: nat)
    requires IsRun(run) && i < |run| && j < k < |run[i].log|
    ensures var log := run[i].log;
            log[j].first + log[j].count <= log[k].first && log[k].first + log[k].count <= run[i].tail
  {
    HeadNeverPassesTail(run, i);
    EveryRunKeepsInv(run, i);
    var won, lost, top :| InvWith(run[i], won, lost, top);
    ClaimsAreDisjoint(run[i].log, run[i].head, j, k);
  }

  ghost predicate InBounds(log: seq<Claim>, size: nat) {
    forall c <- log :: c.first + c.count <= size
  }

  /** What the consumers receive, in the order in which they moved the head. */
  function Delivered<T>(log: seq<Claim>, items: seq<T>): seq<T>
    requires InBounds(log, |items|)
  {
    if log == [] then []
    else
      var c := log[|log| - 1];
      Delivered(log[..|log| - 1], items) + items[c.first..c.first + c.count]
  }

  lemma {:induction false} ContiguousDelivers<T>(log: seq<Claim>, head: nat, items: seq<T>)
    requires Contiguous(log, head) && head <= |items|
    ensures InBounds(log, |items|) && Delivered(log, items) == items[..head]
  {
    if log != [] {
      var c, rest := log[|log| - 1], log[..|log| - 1];
      ContiguousDelivers(rest, c.first, items);
      assert log == rest + [c];
    }
  }

  /** First in, first out: what was claimed so far is the oldest part of what was enqueued, each element once. */
  lemma DeliveryIsFifo<T>(run: seq<State>, i: nat, items: seq<T>)
    requires IsRun(run) && i < |run| && |items| == run[i].tail
    ensures InBounds(run[i].log, |items|) && run[i].head <= |items|
    ensures Delivered(run[i].log, items) == items[..run[i].head]
  {
    HeadNeverPassesTail(run, i);
    EveryRunKeepsInv(run, i);
    var won, lost, top :| InvWith(run[i], won, lost, top);
    ContiguousDelivers(run[i].log, run[i].head, items);
  }

  /** Thread `t` performs `n` operations by itself, or fewer when its call ends sooner. */
  function Alone(s: State, t: Tid, n: nat): (s': State)
    requires t < |s.threads|
    ensures |s'.threads| == |s.threads|
    decreases n
  {
    if n == 0 || s.threads[t].Idle? then s else Alone(Atomic(s, t), t, n - 1)
  }

  /**
   When no reservation is in flight, a dequeue that runs undisturbed takes as many
   elements as it asks for and there are; in particular it fails only on an empty
   sub-queue, whatever races there were before.
   */
  lemma UndisturbedDequeue(run: seq<State>, i: nat, t: Tid, max: nat)
    requires IsRun(run) && i < |run| && t < |run[i].threads| && run[i].threads[t].Idle? && max > 0
    requires forall u | 0 <= u < |run[i].threads| :: InFlight(run[i].threads[u]) == 0
    ensures run[i].head <= run[i].tail
    ensures var s := run[i];
            var n := Min(max, s.tail - s.head);
            var s' := Alone(s.Go(t, LoadTail(max)), t, 6);
            && s'.threads[t].Idle? && s'.head == s.head + n
            && s'.log == if n == 0 then s.log else s.log + [Claim(t, s.head, n)]
  {
    hide IsRun, Alone;
    HeadNeverPassesTail(run, i);
    SumZero(run[i].threads, InFlight);
    var s := run[i];
    AloneLoads(s, t, max, 6);
    if s.head < s.tail {
      AloneTakes(s, t, max);
    } else {
      AloneEmpty(s, t, max, 3);
    }
  }

  lemma AloneLoads(s: State, t: Tid, max: nat, n: nat)
    requires t < |s.threads| && s.threads[t].Idle? && n >= 3
    ensures var s3 := s.Go(t, LoadCount(max, s.tail, s.over));
            Alone(s.Go(t, LoadTail(max)), t, n) == Alone(Atomic(s3, t), t, n - 3)
  {
    var s1, s2 := s.Go(t, LoadTail(max)), s.Go(t, LoadOver(max, s.tail));
    assert Atomic(s1, t) == s2 && Atomic(s2, t) == s.Go(t, LoadCount(max, s.tail, s.over));
    assert Alone(s2, t, n - 1) == Alone(Atomic(s2, t), t, n - 2);
    assert Alone(Atomic(s2, t), t, n - 2) == Alone(Atomic(Atomic(s2, t), t), t, n - 3);
  }

  lemma AloneEmpty(s: State, t: Tid, max: nat, n: nat)
    requires t < |s.threads| && s.threads[t].Idle? && s.head == s.tail && s.opt == s.head + s.over
    ensures Alone(Atomic(s.Go(t, LoadCount(max, s.tail, s.over)), t), t, n) == s
  {
    assert s.Go(t, LoadCount(max, s.tail, s.over)).Go(t, Idle) == s;
  }

  lemma AloneTakes(s: State, t: Tid, max: nat)
    requires t < |s.threads| && s.threads[t].Idle? && s.head < s.tail && s.opt == s.head + s.over && max > 0
    ensures var s3 := s.Go(t, LoadCount(max, s.tail, s.over));
            var n := Min(max, s.tail - s.head);
            var s' := Alone(Atomic(s3, t), t, 3);
            s'.threads[t].Idle? && s'.head == s.head + n && s'.log == s.log + [Claim(t, s.head, n)]
  {
    var s3, n := s.Go(t, LoadCount(max, s.tail, s.over)), Min(max, s.tail - s.head);
    var s4 := s.Go(t, Reserve(n, s.over));
    var s5 := s.(opt := s.opt + n).Go(t, Recheck(n, s.over, s.opt));
    var s6 := s.(opt := s.opt + n).Go(t, Take(n));
    assert Atomic(s3, t) == s4 && Atomic(s4, t) == s5 && Atomic(s5, t) == s6;
    assert Alone(s4, t, 3) == Alone(s5, t, 2) == Alone(s6, t, 1) == Alone(Atomic(s6, t), t, 0);
  }
}
