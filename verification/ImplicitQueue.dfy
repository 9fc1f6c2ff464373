module ImplicitQueue {
  /**
   The sub-queue of an implicit producer as a whole: the four counters of the dequeue protocol, and the index
   through which claimed elements are found. A claim is made by the `fetch_add` on the head alone, without
   looking at the tail; that it is of published elements, which the index relies on, is a result here.
   */

  import opened ThreadCounting
  import D = DequeueProtocol
  import X = ImplicitIndex
  import Index = ImplicitIndexInvariant
  import Runs = ImplicitIndexRuns
  import Delivery = ImplicitIndexDelivery
  import IndexBlocks

  /** The head and the tail are in both parts; they are the same words. */
  datatype State = State(d: D.State, x: X.State)

  datatype Action =
    | Begin(t: Tid, max: nat)     // a call that asks for elements
    | Protocol(t: Tid)            // the next operation of a call on the counters
    | Rest(a: X.Action)           // the producer, and consumers on their way to claimed elements

  predicate Init(s: State) { D.Init(s.d) && X.Init(s.x) && |s.d.threads| == |s.x.threads| }

  /** A consumer calls again once it has all elements of its last claim. */
  predicate Enabled(s: State, a: Action) {
    match a
    case Begin(t, max) => t < |s.x.threads| && s.x.threads[t].Idle? && D.Enabled(s.d, D.Begin(t, max)) && max > 0
    case Protocol(t) => t < |s.x.threads| && s.x.threads[t].Idle? && D.Enabled(s.d, D.Step(t))
    case Rest(b) => !b.Claim? && X.Enabled(s.x, b)
  }

  /** What the `fetch_add` on the head claims, published or not. */
  function Claimed(x: X.State, t: Tid, n: nat): X.State
    requires t < |x.threads|
  {
    x.(head := x.head + n).Go(t, X.Busy(x.head, x.head + n, X.LoadHeader))
  }

  /** The tail that the index has is that of the protocol. */
  function Follow(d: D.State, tail: nat): D.State {
    if tail > d.tail then D.Apply(d, D.Publish(tail - d.tail)) else d
  }

  function Apply(s: State, a: Action): State
    requires Enabled(s, a)
  {
    match a
    case Begin(t, max) => s.(d := D.Apply(s.d, D.Begin(t, max)))
    case Protocol(t) =>
      var p := s.d.threads[t];
      State(D.Apply(s.d, D.Step(t)), if p.Take? then Claimed(s.x, t, p.take) else s.x)
    case Rest(b) =>
      var x := X.Apply(s.x, b);
      State(Follow(s.d, x.tail), x)
  }

  ghost predicate Succeeds(s: State, s': State) {
    exists a :: Enabled(s, a) && s' == Apply(s, a)
  }

  ghost predicate IsRun(run: seq<State>) {
    && run != [] && Init(run[0])
    && forall i | 0 <= i < |run| - 1 :: Succeeds(run[i], run[i + 1])
  }

  /** Calls that ask for elements never come to claim none. */
  predicate Wants(p: D.Pc) {
    match p
    case LoadTail(max) => max > 0
    case LoadOver(max, _) => max > 0
    case LoadCount(max, _, _) => max > 0
    case Reserve(want, _) => want > 0
    case Recheck(want, _, _) => want > 0
    case GiveBack(_, take, _) => take > 0
    case Take(take) => take > 0
    case _ => true
  }

  ghost predicate Inv(s: State) {
    && D.Inv(s.d) && Index.Inv(s.x)
    && s.d.head == s.x.head && s.d.tail == s.x.tail && |s.d.threads| == |s.x.threads|
    && forall t | 0 <= t < |s.d.threads| :: Wants(s.d.threads[t])
  }

  lemma StillWants(d: D.State, t: Tid)
    requires t < |d.threads| && !d.threads[t].Idle? && Wants(d.threads[t])
    ensures Wants(D.Atomic(d, t).threads[t])
  {
  }

  /** Only claims move the head, and the tail never goes back. */
  lemma RestMoves(x: X.State, a: X.Action)
    requires Index.Inv(x) && X.Enabled(x, a) && !a.Claim?
    ensures var x' := X.Apply(x, a); x'.head == x.head && x'.tail >= x.tail && |x'.threads| == |x.threads|
  {
    hide X.Produce, X.Consume, Index.Inv;
    match a
    case Produces => ProduceMoves(x);
    case Consumes(t) => ConsumeMoves(x, t);
    case Enqueue(_) =>
    case Full =>
    case Obtain(_) =>
    case Other(_, _) =>
  }

  lemma ProduceMoves(x: X.State)
    requires Index.Inv(x) && !x.producer.Resting?
    ensures var x' := X.Produce(x); x'.head == x.head && x'.tail >= x.tail && x'.threads == x.threads
  {
    hide Index.IndexOk, Index.StageOk, Index.ThreadOk, X.EntryAt, X.PutEntry, X.SetTail, X.GrownIndex;
  }

  lemma ConsumeMoves(x: X.State, t: Tid)
    requires t < |x.threads| && x.threads[t].Busy?
    ensures var x' := X.Consume(x, t); x'.head == x.head && x'.tail == x.tail && |x'.threads| == |x.threads|
  {
    hide X.EntryAt, X.PutEntry;
  }

  /** The claim that the `fetch_add` makes is one of published elements: a step of the index machine. */
  lemma ClaimIsPublished(s: State, t: Tid)
    requires Inv(s) && Enabled(s, Protocol(t)) && s.d.threads[t].Take?
    ensures var n := s.d.threads[t].take;
            X.Enabled(s.x, X.Claim(t, n)) && Claimed(s.x, t, n) == X.Apply(s.x, X.Claim(t, n))
  {
    hide Index.Inv;
    var won, lost, top :| D.InvWith(s.d, won, lost, top);
    D.WonAtMostTail(s.d, won, lost, top);
    D.TotalsUpdate(s.d.threads, t, D.Idle);
    assert Wants(s.d.threads[t]);
  }

  /** Every step of the whole is one of the protocol's or none, and one of the index machine's or none. */
  lemma StepIsOfBoth(s: State, a: Action)
    requires Inv(s) && Enabled(s, a)
    ensures var s' := Apply(s, a);
            (s'.d == s.d || D.Succeeds(s.d, s'.d)) && (s'.x == s.x || X.Succeeds(s.x, s'.x))
  {
    hide D.Inv, Index.Inv;
    match a
    case Begin(t, max) => assert D.Enabled(s.d, D.Begin(t, max));
    case Protocol(t) =>
      assert D.Enabled(s.d, D.Step(t));
      if s.d.threads[t].Take? { ClaimIsPublished(s, t); }
    case Rest(b) =>
      assert X.Enabled(s.x, b);
      assert forall n: nat :: D.Enabled(s.d, D.Publish(n));
  }

  lemma ApplyKeeps(s: State, a: Action)
    requires Inv(s) && Enabled(s, a)
    ensures Inv(Apply(s, a))
  {
    hide D.Inv, Index.Inv, X.Apply, D.Atomic;
    var s' := Apply(s, a);
    match a
    case Begin(t, max) => D.ApplyKeeps(s.d, D.Begin(t, max));
    case Protocol(t) =>
      D.ApplyKeeps(s.d, D.Step(t));
      StillWants(s.d, t);
      ProtocolMoves(s.d, t);
      if s.d.threads[t].Take? {
        ClaimIsPublished(s, t);
        Runs.ApplyKeeps(s.x, X.Claim(t, s.d.threads[t].take));
      }
    case Rest(b) =>
      RestMoves(s.x, b);
      Runs.ApplyKeeps(s.x, b);
      if s'.x.tail > s.d.tail { D.ApplyKeeps(s.d, D.Publish(s'.x.tail - s.d.tail)); }
  }

  lemma ProtocolMoves(d: D.State, t: Tid)
    requires t < |d.threads| && !d.threads[t].Idle?
    ensures var d' := D.Atomic(d, t);
            && d'.tail == d.tail && d'.head == d.head + (if d.threads[t].Take? then d.threads[t].take else 0)
            && |d'.threads| == |d.threads|
            && forall u | 0 <= u < |d.threads| && u != t :: d'.threads[u] == d.threads[u]
  {
  }

  lemma {:induction false} EveryRunKeepsInv(run: seq<State>, i: nat)
    requires IsRun(run) && i < |run|
    ensures Inv(run[i])
  {
    hide D.Inv, Index.Inv, X.Init, D.Init;
    if i == 0 {
      Runs.InitHolds(run[0].x);
      D.EveryRunKeepsInv([run[0].d], 0);
      assert run[0].d.head == run[0].x.head && run[0].d.tail == run[0].x.tail && Idle(run[0].d) by {
        BothStart(run[0]);
      }
    } else {
      EveryRunKeepsInv(run, i - 1);
      assert Succeeds(run[i - 1], run[i - 1 + 1]);
      var a :| Enabled(run[i - 1], a) && run[i] == Apply(run[i - 1], a);
      ApplyKeeps(run[i - 1], a);
    }
  }

  predicate Idle(d: D.State) { forall t | 0 <= t < |d.threads| :: d.threads[t].Idle? }

  lemma BothStart(s: State)
    requires Init(s)
    ensures s.d.head == s.x.head && s.d.tail == s.x.tail && Idle(s.d)
  {
  }

  /**
   With any number of consumers that race for elements, nobody looks up an element that is not there, and what
   was received for an index is what was enqueued there; the claims made so far are of the oldest elements,
   each once and in order.
   */
  lemma ElementsAreDequeuedOnceAndRight(run: seq<State>, i: nat, t: Tid)
    requires IsRun(run) && i < |run| && t < |run[i].x.threads|
    ensures !run[i].x.threads[t].Crashed?
    ensures forall r <- run[i].x.received :: r.1 == r.0
    ensures run[i].x.head <= run[i].x.tail && D.Contiguous(run[i].d.log, run[i].x.head)
  {
    EveryRunKeepsInv(run, i);
    assert D.Contiguous(run[i].d.log, run[i].d.head) by {
      hide Index.Inv;
      var won, lost, top :| D.InvWith(run[i].d, won, lost, top);
    }
    hide D.Inv, Index.IndexOk, Index.StageOk;
    assert Index.ThreadOk(run[i].x, t, run[i].x.threads[t]);
  }

  /** In every run of the whole each claimed element is received once, or its consumer is still to read it. */
  lemma {:induction false} ElementsAreConserved(run: seq<State>, i: nat)
    requires IsRun(run) && i < |run|
    ensures Delivery.Conserved(run[i].x)
  {
    hide Inv, X.Init, D.Init, Delivery.Conserved;
    if i == 0 {
      Delivery.StartConserves(run[0].x);
    } else {
      ElementsAreConserved(run, i - 1);
      EveryRunKeepsInv(run, i - 1);
      assert Succeeds(run[i - 1], run[i - 1 + 1]);
      var a :| Enabled(run[i - 1], a) && run[i] == Apply(run[i - 1], a);
      StepConserves(run[i - 1], a);
    }
  }

  lemma StepConserves(s: State, a: Action)
    requires Inv(s) && Enabled(s, a) && Delivery.Conserved(s.x)
    ensures Delivery.Conserved(Apply(s, a).x)
  {
    StepIsOfBoth(s, a);
    hide D.Inv, Index.Inv, Delivery.Conserved;
    var x' := Apply(s, a).x;
    if x' != s.x {
      var b :| X.Enabled(s.x, b) && x' == X.Apply(s.x, b);
      Delivery.ApplyConserves(s.x, b);
    }
  }

  /**
   Once no consumer is on its way to elements, the indices received are those below the head, each once; the
   element received for an index is the one enqueued there, and the rest is still in the queue.
   */
  lemma EachElementIsDelivered(run: seq<State>, i: nat, j: nat)
    requires IsRun(run) && i < |run| && forall t | 0 <= t < |run[i].x.threads| :: run[i].x.threads[t].Idle?
    ensures IndexBlocks.Times(run[i].x.received, j) == if j < run[i].x.head then 1 else 0
    ensures run[i].x.head <= run[i].x.tail
    ensures forall r <- run[i].x.received :: r.1 == r.0
  {
    ElementsAreConserved(run, i);
    EveryRunKeepsInv(run, i);
    hide D.Inv, IsRun;
    Delivery.QuietMeansReceived(run[i].x, j);
  }
}
