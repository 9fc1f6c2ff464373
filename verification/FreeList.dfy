module FreeList {
  /**
   The reference-counted, CAS-based free list of `ConcurrentQueue`.

   Threads interleave at the granularity of single atomic operations on
   `freeListHead`, `freeListRefs` and `freeListNext`. A thread's program counter
   says which atomic operation it performs next and holds the local variables that
   are still live. `Atomic` performs one such operation.
   */

  import opened Wrappers

  type Node = nat
  type Tid = nat

  /** The top bit of a 32-bit reference word; the rest is the reference count. */
  const SHOULD_BE_ON_FREELIST: nat := 0x8000_0000

  /** What an atomic fetch-and-add, or fetch-and-subtract, leaves in a 32-bit word. */
  function Plus(word: nat, d: nat): nat { (word + d) % 0x1_0000_0000 }

  function Minus(word: int, d: int): nat { (word - d) % 0x1_0000_0000 }

  /** What runs after `add_knowing_refcount_is_zero` returns. */
  datatype Cont = Return | Resume(seen: Option<Node>)

  /** The atomic operation a thread is about to perform. */
  datatype Pc =
    | Idle
      // add
    | FlagNode(n: Node)
      // add_knowing_refcount_is_zero
    | PushLoad(n: Node, k: Cont)
    | PushLink(n: Node, h: Option<Node>, k: Cont)
    | PushRefs(n: Node, h: Option<Node>, k: Cont)
    | PushCas(n: Node, h: Option<Node>, k: Cont)
    | PushGiveUp(n: Node, h: Option<Node>, k: Cont)
      // try_get
    | PopLoad
    | PopRefs(n: Node)
    | PopPin(n: Node, r: nat)
    | PopNext(n: Node)
    | PopCas(n: Node, nx: Option<Node>)
    | PopTake(n: Node)
    | PopUnpin(n: Node, seen: Option<Node>)

  /** A thread: what it does next, and the nodes it owns as a client of the list. */
  datatype Thread = Thread(pc: Pc, hand: set<Node>)

  /** The words of a node that was never touched hold what its constructor stored. */
  datatype State = State(
    head: Option<Node>,
    refs: map<Node, nat>,
    next: map<Node, Option<Node>>,
    threads: seq<Thread>)
  {
    function Refs(n: Node): nat { WordIn(refs, n) }

    function Next(n: Node): Option<Node> { NextIn(next, n) }

    function Go(t: Tid, p: Pc): State
      requires t < |threads|
    {
      this.(threads := threads[t := threads[t].(pc := p)])
    }

    function Hand(t: Tid, h: set<Node>): State
      requires t < |threads|
    {
      this.(threads := threads[t := threads[t].(hand := h)])
    }
  }

  function WordIn(refs: map<Node, nat>, n: Node): nat { if n in refs then refs[n] else 0 }

  function NextIn(next: map<Node, Option<Node>>, n: Node): Option<Node> {
    if n in next then next[n] else None
  }

  datatype Action =
    | Create(n: Node)           // a client allocates a node
    | Give(to: Tid, n: Node)    // a client passes a node on to another client
    | Add(n: Node)              // a client calls add
    | TryGet                    // a client calls try_get
    | Step                      // the next atomic operation of a running call

  predicate Init(s: State) {
    && s.head == None && s.refs == map[] && s.next == map[]
    && |s.threads| + 1 < SHOULD_BE_ON_FREELIST
    && (forall t | 0 <= t < |s.threads| :: s.threads[t] == Thread(Idle, {}))
  }

  predicate Enabled(s: State, t: Tid, a: Action) {
    && t < |s.threads|
    && match a
       case Create(n) => s.threads[t].pc.Idle? && n !in s.refs
       case Give(to, n) => s.threads[t].pc.Idle? && n in s.threads[t].hand && to < |s.threads| && to != t
       case Add(n) => s.threads[t].pc.Idle? && n in s.threads[t].hand
       case TryGet => s.threads[t].pc.Idle?
       case Step => !s.threads[t].pc.Idle?
  }

  function Apply(s: State, t: Tid, a: Action): State
    requires Enabled(s, t, a)
  {
    var hand := s.threads[t].hand;
    match a
    case Create(n) => s.(refs := s.refs[n := 0]).Hand(t, hand + {n})
    case Give(to, n) => s.Hand(t, hand - {n}).Hand(to, s.threads[to].hand + {n})
    case Add(n) => s.Hand(t, hand - {n}).Go(t, FlagNode(n))
    case TryGet => s.Go(t, PopLoad)
    case Step => Atomic(s, t)
  }

  /** `while (head != nullptr)`: leave with null, or start on the head seen. */
  function Loop(seen: Option<Node>): Pc {
    if seen.None? then Idle else PopRefs(seen.value)
  }

  function Continue(k: Cont): Pc {
    match k case Return => Idle case Resume(seen) => Loop(seen)
  }

  /** One atomic operation of `add` or `try_get`. */
  function Atomic(s: State, t: Tid): State
    requires t < |s.threads| && !s.threads[t].pc.Idle?
  {
    match s.threads[t].pc
    case FlagNode(n) =>
      s.(refs := s.refs[n := Plus(s.Refs(n), SHOULD_BE_ON_FREELIST)])
       .Go(t, if s.Refs(n) == 0 then PushLoad(n, Return) else Idle)
    case PushLoad(n, k) => s.Go(t, PushLink(n, s.head, k))
    case PushLink(n, h, k) => s.(next := s.next[n := h]).Go(t, PushRefs(n, h, k))
    case PushRefs(n, h, k) => s.(refs := s.refs[n := 1]).Go(t, PushCas(n, h, k))
    case PushCas(n, h, k) =>
      if s.head == h then s.(head := Some(n)).Go(t, Continue(k))
      else s.Go(t, PushGiveUp(n, s.head, k))
    case PushGiveUp(n, h, k) =>
      s.(refs := s.refs[n := Plus(s.Refs(n), SHOULD_BE_ON_FREELIST - 1)])
       .Go(t, if s.Refs(n) == 1 then PushLink(n, h, k) else Continue(k))
    case PopLoad => s.Go(t, Loop(s.head))
    case PopRefs(n) =>
      s.Go(t, if s.Refs(n) % SHOULD_BE_ON_FREELIST == 0 then PopLoad else PopPin(n, s.Refs(n)))
    case PopPin(n, r) =>
      if s.Refs(n) == r then s.(refs := s.refs[n := Plus(r, 1)]).Go(t, PopNext(n))
      else s.Go(t, PopLoad)
    case PopNext(n) => s.Go(t, PopCas(n, s.Next(n)))
    case PopCas(n, nx) =>
      if s.head == Some(n) then s.(head := nx).Go(t, PopTake(n))
      else s.Go(t, PopUnpin(n, s.head))
    case PopTake(n) =>
      s.(refs := s.refs[n := Minus(s.Refs(n), 2)]).Go(t, Idle).Hand(t, s.threads[t].hand + {n})
    case PopUnpin(n, seen) =>
      s.(refs := s.refs[n := Minus(s.Refs(n), 1)])
       .Go(t, if s.Refs(n) == SHOULD_BE_ON_FREELIST + 1 then PushLoad(n, Resume(seen)) else Loop(seen))
  }

  // ---------------------------------------------------------------------------
  // The invariant
  // ---------------------------------------------------------------------------

  /** The thread holds a reference it took itself on `n`. */
  predicate Pins(p: Pc, n: Node) {
    (p.PopNext? || p.PopCas? || p.PopTake? || p.PopUnpin?) && p.n == n
  }

  function Pinners(ts: seq<Thread>, n: Node): set<Tid> {
    set t | 0 <= t < |ts| && Pins(ts[t].pc, n)
  }

  /** The thread is adding `n`, and the word of `n` is exactly the flag. */
  predicate AddsAtZero(p: Pc, n: Node) {
    (p.PushLoad? || p.PushLink? || p.PushRefs?) && p.n == n
  }

  /** The thread is adding `n`, and has stored the list's reference in its word. */
  predicate AddsAtOne(p: Pc, n: Node) {
    (p.PushCas? || p.PushGiveUp?) && p.n == n
  }

  predicate Claims(p: Pc, n: Node) {
    AddsAtZero(p, n) || AddsAtOne(p, n) || p == FlagNode(n) || p == PopTake(n)
  }

  /** The thread alone answers for `n`. */
  predicate Responsible(th: Thread, n: Node) { n in th.hand || Claims(th.pc, n) }

  function After(c: seq<Node>, i: nat): Option<Node> {
    if i + 1 < |c| then Some(c[i + 1]) else None
  }

  /** `c` is the list that starts at `head`; it is acyclic. */
  ghost predicate Chain(head: Option<Node>, next: map<Node, Option<Node>>, c: seq<Node>) {
    && (head == if c == [] then None else Some(c[0]))
    && (forall i | 0 <= i < |c| :: NextIn(next, c[i]) == After(c, i))
    && (forall i, j | 0 <= i < j < |c| :: c[i] != c[j])
  }

  /**
   Where a node is: not allocated yet, in the care of one thread, listed, or
   flagged for whichever thread drops the last reference to add it.
   */
  datatype Place = Unborn | By(t: Tid) | Listed | Pending

  /** The word of a node in the care of thread `th`, when `k` threads pin the node. */
  function WordBy(th: Thread, n: Node, k: nat): nat {
    if n in th.hand || th.pc == FlagNode(n) then k
    else if AddsAtZero(th.pc, n) then SHOULD_BE_ON_FREELIST
    else k + 1
  }

  /** The word of `n` counts its temporary holders plus the list's own reference. */
  ghost predicate Counted(word: nat, ts: seq<Thread>, n: Node, p: Place) {
    var k := |Pinners(ts, n)|;
    match p
    case Unborn => word == 0 && k == 0
    case Listed => word == k + 1
    case Pending => k >= 1 && word == SHOULD_BE_ON_FREELIST + k
    case By(t) => t < |ts| && (AddsAtZero(ts[t].pc, n) ==> k == 0) && word == WordBy(ts[t], n, k)
  }

  /** Only the thread that `p` names, if any, answers for `n`, and it does so in one way. */
  ghost predicate Cared(ts: seq<Thread>, n: Node, p: Place) {
    && (forall t | 0 <= t < |ts| && Responsible(ts[t], n) :: p == By(t))
    && (p.By? ==> p.t < |ts| && (n in ts[p.t].hand <==> !Claims(ts[p.t].pc, n)))
  }

  /** What a thread remembers about a next pointer still holds; a word read for pinning was counted. */
  ghost predicate Current(next: map<Node, Option<Node>>, p: Pc) {
    && (p.PushRefs? || p.PushCas? ==> NextIn(next, p.n) == p.h)
    && (p.PopCas? ==> NextIn(next, p.n) == p.nx)
    && (p.PopPin? ==> p.r % SHOULD_BE_ON_FREELIST != 0)
  }

  /** `n` is at `p` and nowhere else, and its word is right. */
  ghost predicate NodeOk(refs: map<Node, nat>, ts: seq<Thread>, c: seq<Node>, n: Node, p: Place) {
    && (p == Listed <==> n in c)
    && (p == Unborn <==> n !in refs)
    && Cared(ts, n, p)
    && Counted(WordIn(refs, n), ts, n, p)
  }

  ghost predicate InvWith(s: State, c: seq<Node>, place: map<Node, Place>) {
    && |s.threads| + 1 < SHOULD_BE_ON_FREELIST
    && Chain(s.head, s.next, c)
    && (forall n :: NodeOk(s.refs, s.threads, c, n, PlaceOf(place, n)))
    && (forall t | 0 <= t < |s.threads| :: Current(s.next, s.threads[t].pc))
  }

  function PlaceOf(place: map<Node, Place>, n: Node): Place {
    if n in place then place[n] else Unborn
  }

  ghost predicate Inv(s: State) { exists c, place :: InvWith(s, c, place) }

  lemma PinnersUpdate(ts: seq<Thread>, t: Tid, th: Thread, n: Node)
    requires t < |ts|
    ensures |Pinners(ts[t := th], n)| == |Pinners(ts, n)| - (if Pins(ts[t].pc, n) then 1 else 0)
            + (if Pins(th.pc, n) then 1 else 0)
  {
    var rest := set u | 0 <= u < |ts| && u != t && Pins(ts[u].pc, n);
    assert Pinners(ts, n) == if Pins(ts[t].pc, n) then rest + {t} else rest;
    assert Pinners(ts[t := th], n) == if Pins(th.pc, n) then rest + {t} else rest;
  }

  lemma {:induction false} PinnersBound(ts: seq<Thread>, n: Node)
    ensures |Pinners(ts, n)| <= |ts|
  {
    if ts == [] {
      assert Pinners(ts, n) == {};
    } else {
      var k := |ts| - 1;
      PinnersBound(ts[..k], n);
      assert Pinners(ts, n) == Pinners(ts[..k], n) + if Pins(ts[k].pc, n) then {k} else {};
    }
  }

  /** The list after thread `t` performs its next atomic operation. */
  ghost function NextChain(s: State, t: Tid, c: seq<Node>): seq<Node>
    requires t < |s.threads|
  {
    match s.threads[t].pc
    case PushCas(n, h, _) => if s.head == h then [n] + c else c
    case PopCas(n, _) => if s.head == Some(n) && c != [] then c[1..] else c
    case _ => c
  }

  /** Where the nodes are after thread `t` performs its next atomic operation. */
  ghost function NextPlace(s: State, t: Tid, place: map<Node, Place>): map<Node, Place>
    requires t < |s.threads|
  {
    match s.threads[t].pc
    case FlagNode(n) => place[n := if s.Refs(n) == 0 then By(t) else Pending]
    case PushCas(n, h, _) => if s.head == h then place[n := Listed] else place
    case PushGiveUp(n, _, _) => place[n := if s.Refs(n) == 1 then By(t) else Pending]
    case PopCas(n, _) => if s.head == Some(n) then place[n := By(t)] else place
    case PopUnpin(n, _) => if s.Refs(n) == SHOULD_BE_ON_FREELIST + 1 then place[n := By(t)] else place
    case _ => place
  }

  /** Replacing thread `t` leaves the word count of nodes it has nothing to do with alone. */
  lemma OtherCounted(word: nat, ts: seq<Thread>, t: Tid, th: Thread, n: Node, p: Place)
    requires t < |ts| && Counted(word, ts, n, p) && Cared(ts, n, p)
    requires Pins(th.pc, n) == Pins(ts[t].pc, n)
    requires n in th.hand <==> n in ts[t].hand
    requires !Claims(th.pc, n) && !Claims(ts[t].pc, n)
    ensures Counted(word, ts[t := th], n, p) && Cared(ts[t := th], n, p)
  {
    PinnersUpdate(ts, t, th, n);
  }

  /** The thread that performs its next operation moves to `th` and leaves `word` in the word of `n`. */
  ghost predicate Moves(word: nat, ts: seq<Thread>, t: Tid, th: Thread, n: Node, p: Place, word': nat, p': Place) {
    && t < |ts|
    && Counted(word', ts[t := th], n, p') && Cared(ts[t := th], n, p')
  }

  /** What the invariant says about one node and the thread about to act on it. */
  ghost predicate Ready(word: nat, ts: seq<Thread>, t: Tid, n: Node, p: Place) {
    && t < |ts| && |ts| + 1 < SHOULD_BE_ON_FREELIST
    && Counted(word, ts, n, p) && Cared(ts, n, p)
  }

  lemma FlagCounts(word: nat, ts: seq<Thread>, t: Tid, n: Node, p: Place)
    requires Ready(word, ts, t, n, p) && ts[t].pc == FlagNode(n)
    ensures Moves(word, ts, t, ts[t].(pc := if word == 0 then PushLoad(n, Return) else Idle), n, p,
            Plus(word, SHOULD_BE_ON_FREELIST), if word == 0 then By(t) else Pending)
  {
    PinnersUpdate(ts, t, ts[t].(pc := if word == 0 then PushLoad(n, Return) else Idle), n);
    PinnersBound(ts, n);
  }

  lemma RefsCounts(word: nat, ts: seq<Thread>, t: Tid, n: Node, p: Place, pc: Pc)
    requires Ready(word, ts, t, n, p) && ts[t].pc.PushRefs? && ts[t].pc.n == n
    requires pc.PushCas? && pc.n == n
    ensures Moves(word, ts, t, ts[t].(pc := pc), n, p, 1, p)
  {
    PinnersUpdate(ts, t, ts[t].(pc := pc), n);
    PinnersBound(ts, n);
  }

  lemma ListCounts(word: nat, ts: seq<Thread>, t: Tid, n: Node, p: Place, pc: Pc)
    requires Ready(word, ts, t, n, p) && ts[t].pc.PushCas? && ts[t].pc.n == n
    requires !Pins(pc, n) && !Claims(pc, n)
    ensures Moves(word, ts, t, ts[t].(pc := pc), n, p, word, Listed)
  {
    PinnersUpdate(ts, t, ts[t].(pc := pc), n);
    PinnersBound(ts, n);
  }

  lemma GiveUpCounts(word: nat, ts: seq<Thread>, t: Tid, n: Node, p: Place, pc: Pc)
    requires Ready(word, ts, t, n, p) && ts[t].pc.PushGiveUp? && ts[t].pc.n == n
    requires !Pins(pc, n) && if word == 1 then pc.PushLink? && pc.n == n else !Claims(pc, n)
    ensures Moves(word, ts, t, ts[t].(pc := pc), n, p, Plus(word, SHOULD_BE_ON_FREELIST - 1),
                  if word == 1 then By(t) else Pending)
  {
    PinnersUpdate(ts, t, ts[t].(pc := pc), n);
    PinnersBound(ts, n);
  }

  lemma PinCounts(word: nat, ts: seq<Thread>, t: Tid, n: Node, p: Place)
    requires Ready(word, ts, t, n, p) && ts[t].pc.PopPin? && ts[t].pc.n == n
    requires word % SHOULD_BE_ON_FREELIST != 0
    ensures Moves(word, ts, t, ts[t].(pc := PopNext(n)), n, p, Plus(word, 1), p)
  {
    PinnersUpdate(ts, t, ts[t].(pc := PopNext(n)), n);
    PinnersBound(ts, n);
  }

  lemma PopCounts(word: nat, ts: seq<Thread>, t: Tid, n: Node, p: Place)
    requires Ready(word, ts, t, n, p) && ts[t].pc.PopCas? && ts[t].pc.n == n
    requires p == Listed
    ensures Moves(word, ts, t, ts[t].(pc := PopTake(n)), n, p, word, By(t))
  {
    PinnersUpdate(ts, t, ts[t].(pc := PopTake(n)), n);
    PinnersBound(ts, n);
  }

  lemma TakeCounts(word: nat, ts: seq<Thread>, t: Tid, n: Node, p: Place)
    requires Ready(word, ts, t, n, p) && ts[t].pc == PopTake(n)
    ensures Moves(word, ts, t, Thread(Idle, ts[t].hand + {n}), n, p, Minus(word, 2), p)
  {
    PinnersUpdate(ts, t, Thread(Idle, ts[t].hand + {n}), n);
    PinnersBound(ts, n);
  }

  lemma UnpinCounts(word: nat, ts: seq<Thread>, t: Tid, n: Node, p: Place, pc: Pc)
    requires Ready(word, ts, t, n, p) && ts[t].pc.PopUnpin? && ts[t].pc.n == n
    requires !Pins(pc, n) && if word == SHOULD_BE_ON_FREELIST + 1 then pc.PushLoad? && pc.n == n else !Claims(pc, n)
    ensures Moves(word, ts, t, ts[t].(pc := pc), n, p, Minus(word, 1),
                  if word == SHOULD_BE_ON_FREELIST + 1 then By(t) else p)
  {
    PinnersUpdate(ts, t, ts[t].(pc := pc), n);
    PinnersBound(ts, n);
  }

  /** A step of thread `t` that is about node `n` keeps the invariant once `n` and the list are in order. */
  lemma StepAbout(s: State, s': State, t: Tid, n: Node, c: seq<Node>, c': seq<Node>,
                  place: map<Node, Place>, place': map<Node, Place>)
    requires InvWith(s, c, place) && t < |s.threads|
    requires |s'.threads| == |s.threads| && s'.threads == s.threads[t := s'.threads[t]]
    requires n in s.refs && s'.refs == s.refs[n := s'.Refs(n)]
    requires n in place && n in place' && place' == place[n := place'[n]] && place'[n] != Unborn
    requires forall m | m != n :: !Claims(s.threads[t].pc, m) && !Claims(s'.threads[t].pc, m)
    requires forall m | m != n :: !Pins(s.threads[t].pc, m) && !Pins(s'.threads[t].pc, m)
    requires forall m | m != n :: m in s'.threads[t].hand <==> m in s.threads[t].hand
    requires forall m | m != n :: m in c' <==> m in c
    requires n in c' <==> place'[n] == Listed
    requires Moves(s.Refs(n), s.threads, t, s'.threads[t], n, place[n], s'.Refs(n), place'[n])
    requires Chain(s'.head, s'.next, c')
    requires forall u | 0 <= u < |s'.threads| :: Current(s'.next, s'.threads[u].pc)
    ensures InvWith(s', c', place')
  {
    forall m
      ensures NodeOk(s'.refs, s'.threads, c', m, PlaceOf(place', m))
    {
      assert NodeOk(s.refs, s.threads, c, m, PlaceOf(place, m));
      if m != n { OtherCounted(s.Refs(m), s.threads, t, s'.threads[t], m, PlaceOf(place, m)); }
    }
  }

  lemma FlagNodeKeeps(s: State, t: Tid, c: seq<Node>, place: map<Node, Place>)
    requires InvWith(s, c, place) && t < |s.threads| && s.threads[t].pc.FlagNode?
    ensures InvWith(Atomic(s, t), NextChain(s, t, c), NextPlace(s, t, place))
  {
    var n, s' := s.threads[t].pc.n, Atomic(s, t);
    var pc, word, p := s'.threads[t].pc, s.Refs(n), PlaceOf(place, n);
    FlagCounts(word, s.threads, t, n, p);
    StepAbout(s, s', t, n, c, NextChain(s, t, c), place, NextPlace(s, t, place));
  }

  lemma PushRefsKeeps(s: State, t: Tid, c: seq<Node>, place: map<Node, Place>)
    requires InvWith(s, c, place) && t < |s.threads| && s.threads[t].pc.PushRefs?
    ensures InvWith(Atomic(s, t), NextChain(s, t, c), NextPlace(s, t, place))
  {
    var n, s' := s.threads[t].pc.n, Atomic(s, t);
    var pc, word, p := s'.threads[t].pc, s.Refs(n), PlaceOf(place, n);
    RefsCounts(word, s.threads, t, n, p, pc);
    StepAbout(s, s', t, n, c, NextChain(s, t, c), place, NextPlace(s, t, place));
  }

  lemma PushGiveUpKeeps(s: State, t: Tid, c: seq<Node>, place: map<Node, Place>)
    requires InvWith(s, c, place) && t < |s.threads| && s.threads[t].pc.PushGiveUp?
    ensures InvWith(Atomic(s, t), NextChain(s, t, c), NextPlace(s, t, place))
  {
    var n, s' := s.threads[t].pc.n, Atomic(s, t);
    var pc, word, p := s'.threads[t].pc, s.Refs(n), PlaceOf(place, n);
    assert p == By(t) && n !in c;
    GiveUpCounts(word, s.threads, t, n, p, pc);
    StepAbout(s, s', t, n, c, NextChain(s, t, c), place, NextPlace(s, t, place));
  }

  lemma PopTakeKeeps(s: State, t: Tid, c: seq<Node>, place: map<Node, Place>)
    requires InvWith(s, c, place) && t < |s.threads| && s.threads[t].pc.PopTake?
    ensures InvWith(Atomic(s, t), NextChain(s, t, c), NextPlace(s, t, place))
  {
    var n, s' := s.threads[t].pc.n, Atomic(s, t);
    var pc, word, p := s'.threads[t].pc, s.Refs(n), PlaceOf(place, n);
    TakeCounts(word, s.threads, t, n, p);
    StepAbout(s, s', t, n, c, NextChain(s, t, c), place, NextPlace(s, t, place));
  }

  lemma LastPinIsPending(word: nat, ts: seq<Thread>, t: Tid, n: Node, p: Place)
    requires Ready(word, ts, t, n, p) && Pins(ts[t].pc, n) && !Claims(ts[t].pc, n)
    requires word == SHOULD_BE_ON_FREELIST + 1
    ensures p == Pending
  {
    PinnersBound(ts, n);
    PinnersUpdate(ts, t, Thread(Idle, {}), n);
  }

  lemma UnpinLast(s: State, t: Tid, seen: Option<Node>, n: Node, c: seq<Node>, place: map<Node, Place>)
    requires InvWith(s, c, place) && t < |s.threads| && s.threads[t].pc == PopUnpin(n, seen)
    requires s.Refs(n) == SHOULD_BE_ON_FREELIST + 1
    ensures InvWith(s.(refs := s.refs[n := Minus(s.Refs(n), 1)]).Go(t, PushLoad(n, Resume(seen))), c, place[n := By(t)])
  {
    var s', p := s.(refs := s.refs[n := Minus(s.Refs(n), 1)]).Go(t, PushLoad(n, Resume(seen))), PlaceOf(place, n);
    LastPinIsPending(s.Refs(n), s.threads, t, n, p);
    UnpinCounts(s.Refs(n), s.threads, t, n, p, PushLoad(n, Resume(seen)));
    StepAbout(s, s', t, n, c, c, place, place[n := By(t)]);
  }

  lemma UnpinOther(s: State, t: Tid, seen: Option<Node>, n: Node, c: seq<Node>, place: map<Node, Place>)
    requires InvWith(s, c, place) && t < |s.threads| && s.threads[t].pc == PopUnpin(n, seen)
    requires s.Refs(n) != SHOULD_BE_ON_FREELIST + 1
    ensures InvWith(s.(refs := s.refs[n := Minus(s.Refs(n), 1)]).Go(t, Loop(seen)), c, place)
  {
    var s', p := s.(refs := s.refs[n := Minus(s.Refs(n), 1)]).Go(t, Loop(seen)), PlaceOf(place, n);
    UnpinCounts(s.Refs(n), s.threads, t, n, p, Loop(seen));
    PinnersUpdate(s.threads, t, s'.threads[t], n);
    StepAbout(s, s', t, n, c, c, place, place);
  }

  lemma PopUnpinKeeps(s: State, t: Tid, c: seq<Node>, place: map<Node, Place>)
    requires InvWith(s, c, place) && t < |s.threads| && s.threads[t].pc.PopUnpin?
    ensures InvWith(Atomic(s, t), NextChain(s, t, c), NextPlace(s, t, place))
  {
    var PopUnpin(n, seen) := s.threads[t].pc;
    if s.Refs(n) == SHOULD_BE_ON_FREELIST + 1 {
      UnpinLast(s, t, seen, n, c, place);
    } else {
      UnpinOther(s, t, seen, n, c, place);
    }
  }

  /** A step of thread `t` that only moves it on, without taking or dropping anything, keeps the invariant. */
  lemma QuietStep(s: State, t: Tid, pc: Pc, c: seq<Node>, place: map<Node, Place>)
    requires InvWith(s, c, place) && t < |s.threads|
    requires forall m :: Pins(pc, m) == Pins(s.threads[t].pc, m)
    requires forall m :: AddsAtZero(pc, m) == AddsAtZero(s.threads[t].pc, m)
    requires forall m :: AddsAtOne(pc, m) == AddsAtOne(s.threads[t].pc, m)
    requires !pc.FlagNode? && !s.threads[t].pc.FlagNode? && !pc.PopTake? && !s.threads[t].pc.PopTake?
    requires Current(s.next, pc)
    ensures InvWith(s.Go(t, pc), c, place)
  {
    var s' := s.Go(t, pc);
    forall m
      ensures NodeOk(s'.refs, s'.threads, c, m, PlaceOf(place, m))
    {
      assert NodeOk(s.refs, s.threads, c, m, PlaceOf(place, m));
      PinnersUpdate(s.threads, t, s'.threads[t], m);
    }
  }

  lemma PushLoadKeeps(s: State, t: Tid, c: seq<Node>, place: map<Node, Place>)
    requires InvWith(s, c, place) && t < |s.threads| && s.threads[t].pc.PushLoad?
    ensures InvWith(Atomic(s, t), NextChain(s, t, c), NextPlace(s, t, place))
  {
    QuietStep(s, t, Atomic(s, t).threads[t].pc, c, place);
  }

  lemma PopLoadKeeps(s: State, t: Tid, c: seq<Node>, place: map<Node, Place>)
    requires InvWith(s, c, place) && t < |s.threads| && s.threads[t].pc.PopLoad?
    ensures InvWith(Atomic(s, t), NextChain(s, t, c), NextPlace(s, t, place))
  {
    QuietStep(s, t, Atomic(s, t).threads[t].pc, c, place);
  }

  lemma PopRefsKeeps(s: State, t: Tid, c: seq<Node>, place: map<Node, Place>)
    requires InvWith(s, c, place) && t < |s.threads| && s.threads[t].pc.PopRefs?
    ensures InvWith(Atomic(s, t), NextChain(s, t, c), NextPlace(s, t, place))
  {
    QuietStep(s, t, Atomic(s, t).threads[t].pc, c, place);
  }

  lemma PopNextKeeps(s: State, t: Tid, c: seq<Node>, place: map<Node, Place>)
    requires InvWith(s, c, place) && t < |s.threads| && s.threads[t].pc.PopNext?
    ensures InvWith(Atomic(s, t), NextChain(s, t, c), NextPlace(s, t, place))
  {
    QuietStep(s, t, Atomic(s, t).threads[t].pc, c, place);
  }

  lemma PushLinkKeeps(s: State, t: Tid, c: seq<Node>, place: map<Node, Place>)
    requires InvWith(s, c, place) && t < |s.threads| && s.threads[t].pc.PushLink?
    ensures InvWith(Atomic(s, t), NextChain(s, t, c), NextPlace(s, t, place))
  {
    var n := s.threads[t].pc.n;
    NobodyElseCares(s, t, n, place, c);
    var s1 := s.(next := s.next[n := s.threads[t].pc.h]);
    QuietStep(s1, t, Atomic(s, t).threads[t].pc, c, place);
  }

  /** While a node is added at refcount zero nobody pins it, lists it or adds it as well. */
  lemma NobodyElseCares(s: State, t: Tid, n: Node, place: map<Node, Place>, c: seq<Node>)
    requires InvWith(s, c, place) && t < |s.threads| && AddsAtZero(s.threads[t].pc, n)
    ensures n !in c
    ensures forall u | 0 <= u < |s.threads| :: !Pins(s.threads[u].pc, n)
    ensures forall u | 0 <= u < |s.threads| && u != t :: !Responsible(s.threads[u], n)
  {
    assert NodeOk(s.refs, s.threads, c, n, PlaceOf(place, n));
    assert PlaceOf(place, n) == By(t);
    assert Pinners(s.threads, n) == {};
    forall u | 0 <= u < |s.threads|
      ensures !Pins(s.threads[u].pc, n)
    {
      assert u !in Pinners(s.threads, n);
    }
  }

  lemma ChainGrows(head: Option<Node>, next: map<Node, Option<Node>>, c: seq<Node>, n: Node)
    requires Chain(head, next, c) && NextIn(next, n) == head && n !in c
    ensures Chain(Some(n), next, [n] + c)
  {
    var d := [n] + c;
    forall i | 0 <= i < |d|
      ensures NextIn(next, d[i]) == After(d, i)
    {
      if i > 0 { assert d[i] == c[i - 1] && NextIn(next, c[i - 1]) == After(c, i - 1); }
    }
  }

  lemma ChainShrinks(head: Option<Node>, next: map<Node, Option<Node>>, c: seq<Node>)
    requires Chain(head, next, c) && c != []
    ensures Chain(NextIn(next, c[0]), next, c[1..])
    ensures forall m | m != c[0] :: m in c[1..] <==> m in c
    ensures c[0] !in c[1..]
  {
    var d := c[1..];
    assert NextIn(next, c[0]) == After(c, 0);
    assert c == [c[0]] + d;
    forall i | 0 <= i < |d|
      ensures NextIn(next, d[i]) == After(d, i)
    {
      assert d[i] == c[i + 1] && NextIn(next, c[i + 1]) == After(c, i + 1);
    }
  }

  lemma PushCasKeeps(s: State, t: Tid, c: seq<Node>, place: map<Node, Place>)
    requires InvWith(s, c, place) && t < |s.threads| && s.threads[t].pc.PushCas?
    ensures InvWith(Atomic(s, t), NextChain(s, t, c), NextPlace(s, t, place))
  {
    var n, s' := s.threads[t].pc.n, Atomic(s, t);
    if s.head == s.threads[t].pc.h {
      assert PlaceOf(place, n) == By(t) && n !in c;
      ChainGrows(s.head, s.next, c, n);
      ListCounts(s.Refs(n), s.threads, t, n, PlaceOf(place, n), s'.threads[t].pc);
      StepAbout(s, s', t, n, c, [n] + c, place, place[n := Listed]);
    } else {
      QuietStep(s, t, s'.threads[t].pc, c, place);
    }
  }

  lemma PopPinKeeps(s: State, t: Tid, c: seq<Node>, place: map<Node, Place>)
    requires InvWith(s, c, place) && t < |s.threads| && s.threads[t].pc.PopPin?
    ensures InvWith(Atomic(s, t), NextChain(s, t, c), NextPlace(s, t, place))
  {
    var n, s' := s.threads[t].pc.n, Atomic(s, t);
    if s.Refs(n) == s.threads[t].pc.r {
      PinCounts(s.Refs(n), s.threads, t, n, PlaceOf(place, n));
      StepAbout(s, s', t, n, c, c, place, place);
    } else {
      QuietStep(s, t, PopLoad, c, place);
    }
  }

  lemma PopCasKeeps(s: State, t: Tid, c: seq<Node>, place: map<Node, Place>)
    requires InvWith(s, c, place) && t < |s.threads| && s.threads[t].pc.PopCas?
    ensures InvWith(Atomic(s, t), NextChain(s, t, c), NextPlace(s, t, place))
  {
    var n, s' := s.threads[t].pc.n, Atomic(s, t);
    if s.head == Some(n) {
      assert c[0] == n && PlaceOf(place, n) == Listed;
      ChainShrinks(s.head, s.next, c);
      PopCounts(s.Refs(n), s.threads, t, n, Listed);
      StepAbout(s, s', t, n, c, c[1..], place, place[n := By(t)]);
    } else {
      QuietStep(s, t, s'.threads[t].pc, c, place);
    }
  }

  lemma AtomicKeeps(s: State, t: Tid, c: seq<Node>, place: map<Node, Place>)
    requires InvWith(s, c, place) && t < |s.threads| && !s.threads[t].pc.Idle?
    ensures InvWith(Atomic(s, t), NextChain(s, t, c), NextPlace(s, t, place))
  {
    match s.threads[t].pc
    case FlagNode(_) => FlagNodeKeeps(s, t, c, place);
    case PushLoad(_, _) => PushLoadKeeps(s, t, c, place);
    case PushLink(_, _, _) => PushLinkKeeps(s, t, c, place);
    case PushRefs(_, _, _) => PushRefsKeeps(s, t, c, place);
    case PushCas(_, _, _) => PushCasKeeps(s, t, c, place);
    case PushGiveUp(_, _, _) => PushGiveUpKeeps(s, t, c, place);
    case PopLoad => PopLoadKeeps(s, t, c, place);
    case PopRefs(_) => PopRefsKeeps(s, t, c, place);
    case PopPin(_, _) => PopPinKeeps(s, t, c, place);
    case PopNext(_) => PopNextKeeps(s, t, c, place);
    case PopCas(_, _) => PopCasKeeps(s, t, c, place);
    case PopTake(_) => PopTakeKeeps(s, t, c, place);
    case PopUnpin(_, _) => PopUnpinKeeps(s, t, c, place);
  }

  lemma CreateCounts(ts: seq<Thread>, t: Tid, n: Node)
    requires Ready(0, ts, t, n, Unborn) && ts[t].pc.Idle?
    ensures Moves(0, ts, t, ts[t].(hand := ts[t].hand + {n}), n, Unborn, 0, By(t))
  {
    PinnersUpdate(ts, t, ts[t].(hand := ts[t].hand + {n}), n);
  }

  lemma CreateKeeps(s: State, t: Tid, n: Node, c: seq<Node>, place: map<Node, Place>)
    requires InvWith(s, c, place) && Enabled(s, t, Create(n))
    ensures InvWith(Apply(s, t, Create(n)), c, place[n := By(t)])
  {
    var s' := Apply(s, t, Create(n));
    assert PlaceOf(place, n) == Unborn;
    CreateCounts(s.threads, t, n);
    var place' := place[n := By(t)];
    forall m
      ensures NodeOk(s'.refs, s'.threads, c, m, PlaceOf(place', m))
    {
      assert NodeOk(s.refs, s.threads, c, m, PlaceOf(place, m));
      if m != n { OtherCounted(s.Refs(m), s.threads, t, s'.threads[t], m, PlaceOf(place, m)); }
    }
  }

  lemma AddKeeps(s: State, t: Tid, n: Node, c: seq<Node>, place: map<Node, Place>)
    requires InvWith(s, c, place) && Enabled(s, t, Add(n))
    ensures InvWith(Apply(s, t, Add(n)), c, place)
  {
    var s' := Apply(s, t, Add(n));
    assert s'.threads == s.threads[t := s'.threads[t]];
    forall m
      ensures NodeOk(s'.refs, s'.threads, c, m, PlaceOf(place, m))
    {
      assert NodeOk(s.refs, s.threads, c, m, PlaceOf(place, m));
      PinnersUpdate(s.threads, t, s'.threads[t], m);
    }
  }

  /** Passing a node on leaves its word right and makes the receiver answer for it. */
  lemma GiveCounts(word: nat, ts: seq<Thread>, t: Tid, to: Tid, n: Node, p: Place)
    requires Ready(word, ts, t, n, p) && to < |ts| && to != t && n in ts[t].hand
    ensures var th, tu := ts[t].(hand := ts[t].hand - {n}), ts[to].(hand := ts[to].hand + {n});
            Counted(word, ts[t := th][to := tu], n, By(to)) && Cared(ts[t := th][to := tu], n, By(to))
  {
    var th, tu := ts[t].(hand := ts[t].hand - {n}), ts[to].(hand := ts[to].hand + {n});
    PinnersUpdate(ts, t, th, n);
    PinnersUpdate(ts[t := th], to, tu, n);
  }

  lemma OtherGiven(word: nat, ts: seq<Thread>, t: Tid, h: set<Node>, n: Node, m: Node, p: Place)
    requires t < |ts| && Counted(word, ts, m, p) && Cared(ts, m, p) && m != n
    requires h == ts[t].hand - {n} || h == ts[t].hand + {n}
    ensures Counted(word, ts[t := ts[t].(hand := h)], m, p) && Cared(ts[t := ts[t].(hand := h)], m, p)
  {
    PinnersUpdate(ts, t, ts[t].(hand := h), m);
  }

  lemma GiveKeeps(s: State, t: Tid, to: Tid, n: Node, c: seq<Node>, place: map<Node, Place>)
    requires InvWith(s, c, place) && Enabled(s, t, Give(to, n))
    ensures InvWith(Apply(s, t, Give(to, n)), c, place[n := By(to)])
  {
    var s' := Apply(s, t, Give(to, n));
    var h := s.threads[t].hand - {n};
    var ts := s.threads[t := s.threads[t].(hand := h)];
    assert NodeOk(s.refs, s.threads, c, n, PlaceOf(place, n)) && PlaceOf(place, n) == By(t);
    var place' := place[n := By(to)];
    forall m
      ensures NodeOk(s'.refs, s'.threads, c, m, PlaceOf(place', m))
    {
      assert NodeOk(s.refs, s.threads, c, m, PlaceOf(place, m));
      var word, p := s.Refs(m), PlaceOf(place, m);
      if m == n {
        GiveCounts(word, s.threads, t, to, n, p);
      } else {
        OtherGiven(word, s.threads, t, h, n, m, p);
        OtherGiven(word, ts, to, s.threads[to].hand + {n}, n, m, p);
      }
    }
    assert n in s.refs && n !in c;
    forall u | 0 <= u < |s'.threads|
      ensures Current(s'.next, s'.threads[u].pc)
    {
      assert Current(s.next, s.threads[u].pc);
    }
  }

  lemma ApplyKeeps(s: State, t: Tid, a: Action)
    requires Inv(s) && Enabled(s, t, a)
    ensures Inv(Apply(s, t, a))
  {
    var c, place :| InvWith(s, c, place);
    match a
    case Create(n) => CreateKeeps(s, t, n, c, place);
    case Give(to, n) => GiveKeeps(s, t, to, n, c, place);
    case Add(n) => AddKeeps(s, t, n, c, place);
    case TryGet => QuietStep(s, t, PopLoad, c, place);
    case Step => AtomicKeeps(s, t, c, place);
  }

  // ---------------------------------------------------------------------------
  // Every run
  // ---------------------------------------------------------------------------

  ghost predicate Succeeds(s: State, s': State) {
    exists t, a :: Enabled(s, t, a) && s' == Apply(s, t, a)
  }

  /** The states of one interleaving, from the empty list on. */
  ghost predicate IsRun(run: seq<State>) {
    && run != [] && Init(run[0])
    && forall i | 0 <= i < |run| - 1 :: Succeeds(run[i], run[i + 1])
  }

  lemma {:induction false} EveryRunKeepsInv(run: seq<State>, i: nat)
    requires IsRun(run) && i < |run|
    ensures Inv(run[i])
  {
    if i == 0 {
      var s := run[0];
      forall n
        ensures Pinners(s.threads, n) == {}
        ensures NodeOk(s.refs, s.threads, [], n, PlaceOf(map[], n))
      {
      }
      assert InvWith(s, [], map[]);
    } else {
      EveryRunKeepsInv(run, i - 1);
      assert Succeeds(run[i - 1], run[i - 1 + 1]);
      var t, a :| Enabled(run[i - 1], t, a) && run[i] == Apply(run[i - 1], t, a);
      ApplyKeeps(run[i - 1], t, a);
    }
  }

  /** What `p` says of `n` is true in `s`, whose list is `c`. */
  ghost predicate IsAt(s: State, c: seq<Node>, n: Node, p: Place) {
    match p
    case Unborn => n !in s.refs
    case By(t) => t < |s.threads| && Responsible(s.threads[t], n)
    case Listed => n in c
    case Pending =>
      && Pinners(s.threads, n) != {}
      && s.Refs(n) == SHOULD_BE_ON_FREELIST + |Pinners(s.threads, n)|
  }

  ghost predicate OnlyAt(s: State, c: seq<Node>, n: Node, p: Place) {
    IsAt(s, c, n, p) && forall q :: IsAt(s, c, n, q) ==> q == p
  }

  ghost predicate HasOnePlace(s: State, c: seq<Node>, n: Node) { exists p :: OnlyAt(s, c, n, p) }

  lemma PlacedOnce(s: State, c: seq<Node>, place: map<Node, Place>, n: Node)
    requires InvWith(s, c, place)
    ensures OnlyAt(s, c, n, PlaceOf(place, n))
  {
    var p := PlaceOf(place, n);
    PinnersBound(s.threads, n);
    assert NodeOk(s.refs, s.threads, c, n, p);
    assert p == Unborn ==> Pinners(s.threads, n) == {};
    assert p == Pending ==> Pinners(s.threads, n) != {};
  }

  /** In every reachable state a node is in exactly one place, and the list is acyclic. */
  lemma EveryNodeHasOnePlace(run: seq<State>, i: nat) returns (c: seq<Node>)
    requires IsRun(run) && i < |run|
    ensures Chain(run[i].head, run[i].next, c)
    ensures forall n :: HasOnePlace(run[i], c, n)
  {
    EveryRunKeepsInv(run, i);
    var s := run[i];
    var place;
    c, place :| InvWith(s, c, place);
    forall n
      ensures HasOnePlace(s, c, n)
    {
      PlacedOnce(s, c, place, n);
    }
  }

  /** No node is ever owned by two clients, or owned while it is listed. */
  lemma NoSharedOwner(run: seq<State>, i: nat, c: seq<Node>, t: Tid, u: Tid, n: Node)
    requires IsRun(run) && i < |run| && Chain(run[i].head, run[i].next, c)
    requires t < |run[i].threads| && u < |run[i].threads|
    requires n in run[i].threads[t].hand
    ensures n in run[i].threads[u].hand ==> u == t
    ensures !Claims(run[i].threads[u].pc, n)
    ensures n !in c
  {
    var d := EveryNodeHasOnePlace(run, i);
    ChainIsUnique(run[i].head, run[i].next, c, d);
    assert HasOnePlace(run[i], d, n);
    var p :| OnlyAt(run[i], d, n, p);
    assert IsAt(run[i], d, n, By(t)) && !IsAt(run[i], d, n, Listed);
    assert IsAt(run[i], d, n, By(u)) ==> u == t;
    EveryRunKeepsInv(run, i);
    var e, place :| InvWith(run[i], e, place);
    assert NodeOk(run[i].refs, run[i].threads, e, n, PlaceOf(place, n));
  }

  lemma {:induction false} ChainIsUnique(head: Option<Node>, next: map<Node, Option<Node>>, c: seq<Node>, d: seq<Node>)
    requires Chain(head, next, c) && Chain(head, next, d)
    ensures c == d
    decreases |c|
  {
    if c != [] {
      ChainShrinks(head, next, c);
      ChainShrinks(head, next, d);
      ChainIsUnique(NextIn(next, c[0]), next, c[1..], d[1..]);
      assert c == [c[0]] + c[1..] && d == [d[0]] + d[1..];
    }
  }

  /**
   A successful pop is free of the ABA problem: the successor it installs is the
   successor the node has now, the flag is clear, and the word has the two
   references that are about to be dropped.
   */
  lemma PopIsSafe(run: seq<State>, i: nat, t: Tid)
    requires IsRun(run) && i < |run| && t < |run[i].threads|
    ensures run[i].threads[t].pc.PopCas? ==> run[i].Next(run[i].threads[t].pc.n) == run[i].threads[t].pc.nx
    ensures run[i].threads[t].pc.PopTake? ==> 2 <= run[i].Refs(run[i].threads[t].pc.n) < SHOULD_BE_ON_FREELIST
  {
    EveryRunKeepsInv(run, i);
    var s := run[i];
    var c, place :| InvWith(s, c, place);
    assert Current(s.next, s.threads[t].pc);
    if s.threads[t].pc.PopTake? {
      var n := s.threads[t].pc.n;
      assert NodeOk(s.refs, s.threads, c, n, PlaceOf(place, n));
      PinnersUpdate(s.threads, t, Thread(Idle, {}), n);
      PinnersBound(s.threads, n);
    }
  }

  /** When no call is running, every allocated node is listed or owned by a client: none is lost. */
  lemma NothingIsLost(run: seq<State>, i: nat, n: Node) returns (c: seq<Node>)
    requires IsRun(run) && i < |run| && n in run[i].refs
    requires forall t | 0 <= t < |run[i].threads| :: run[i].threads[t].pc == Idle
    ensures Chain(run[i].head, run[i].next, c)
    ensures n in c || exists t :: 0 <= t < |run[i].threads| && n in run[i].threads[t].hand
  {
    c := EveryNodeHasOnePlace(run, i);
    assert HasOnePlace(run[i], c, n);
    var p :| OnlyAt(run[i], c, n, p);
    assert Pinners(run[i].threads, n) == {};
  }

  // ---------------------------------------------------------------------------
  // Calls that run undisturbed
  // ---------------------------------------------------------------------------

  /** Thread `t` performs `n` operations by itself, or fewer when its call ends sooner. */
  function Alone(s: State, t: Tid, n: nat): (s': State)
    requires t < |s.threads|
    ensures |s'.threads| == |s.threads|
    decreases n
  {
    if n == 0 || s.threads[t].pc.Idle? then s else Alone(Atomic(s, t), t, n - 1)
  }

  /**
   Whatever other threads were about to do, a `try_get` that runs undisturbed takes the head of the list, and
   comes back without a node only when the list is empty.
   */
  lemma UndisturbedTryGet(run: seq<State>, i: nat, t: Tid)
    requires IsRun(run) && i < |run| && t < |run[i].threads| && run[i].threads[t].pc == Idle
    ensures var s := run[i];
            var s' := Alone(Apply(s, t, TryGet), t, 6);
            && s'.threads[t].pc == Idle
            && match s.head
               case None => s'.head == None && s'.threads[t].hand == s.threads[t].hand
               case Some(n) => s'.head == s.Next(n) && s'.threads[t].hand == s.threads[t].hand + {n}
  {
    EveryRunKeepsInv(run, i);
    var s := run[i];
    if s.head.Some? {
      HeadIsCounted(s);
      AloneTakes(s, t, s.head.value);
    }
  }

  /** The head can be pinned. */
  lemma HeadIsCounted(s: State)
    requires Inv(s) && s.head.Some?
    ensures 1 <= s.Refs(s.head.value) < SHOULD_BE_ON_FREELIST
  {
    var c, place :| InvWith(s, c, place);
    var n := s.head.value;
    assert n == c[0] && n in c;
    assert NodeOk(s.refs, s.threads, c, n, PlaceOf(place, n));
    PinnersBound(s.threads, n);
  }

  lemma AloneTakes(s: State, t: Tid, n: Node)
    requires t < |s.threads| && s.threads[t].pc == Idle && s.head == Some(n)
    requires 1 <= s.Refs(n) < SHOULD_BE_ON_FREELIST
    ensures var s' := Alone(Apply(s, t, TryGet), t, 6);
            s'.threads[t] == Thread(Idle, s.threads[t].hand + {n}) && s'.head == s.Next(n)
  {
    var s1 := Atomic(Apply(s, t, TryGet), t);
    var s2 := Atomic(s1, t);
    var s3 := Atomic(s2, t);
    var s4 := Atomic(s3, t);
    var s5 := Atomic(s4, t);
    assert s1.threads[t].pc == PopRefs(n) && s1.Refs(n) == s.Refs(n);
    assert s2.threads[t].pc == PopPin(n, s.Refs(n));
    assert s3.threads[t].pc == PopNext(n) && s3.Next(n) == s.Next(n) && s3.head == Some(n);
    assert s4.threads[t].pc == PopCas(n, s.Next(n));
    assert s5.threads[t].pc == PopTake(n) && s5.head == s.Next(n);
    var s6 := Atomic(s5, t);
    assert s6.threads[t] == Thread(Idle, s.threads[t].hand + {n});
    assert Alone(s1, t, 5) == Alone(s2, t, 4) == Alone(s3, t, 3) == Alone(s4, t, 2);
    assert Alone(s4, t, 2) == Alone(s5, t, 1) == Alone(s6, t, 0);
  }

  /** An `add` that runs undisturbed makes the node the head, unless threads hold it still; then it is left to them. */
  lemma UndisturbedAdd(run: seq<State>, i: nat, t: Tid, n: Node)
    requires IsRun(run) && i < |run| && t < |run[i].threads| && Enabled(run[i], t, Add(n))
    ensures var s := run[i];
            var s' := Alone(Apply(s, t, Add(n)), t, 5);
            && s'.threads[t] == Thread(Idle, s.threads[t].hand - {n})
            && (Pinners(s.threads, n) == {} ==> s'.head == Some(n) && s'.Next(n) == s.head && s'.Refs(n) == 1)
            && (Pinners(s.threads, n) != {} ==>
                  s'.head == s.head && s'.Refs(n) == s.Refs(n) + SHOULD_BE_ON_FREELIST)
  {
    EveryRunKeepsInv(run, i);
    var s := run[i];
    OwnedIsCounted(s, t, n);
    AloneAdds(s, t, n);
  }

  lemma OwnedIsCounted(s: State, t: Tid, n: Node)
    requires Inv(s) && t < |s.threads| && s.threads[t].pc == Idle && n in s.threads[t].hand
    ensures s.Refs(n) < SHOULD_BE_ON_FREELIST && (s.Refs(n) == 0 <==> Pinners(s.threads, n) == {})
  {
    var c, place :| InvWith(s, c, place);
    assert NodeOk(s.refs, s.threads, c, n, PlaceOf(place, n));
    assert Responsible(s.threads[t], n);
    PinnersBound(s.threads, n);
  }

  lemma AloneAdds(s: State, t: Tid, n: Node)
    requires t < |s.threads| && s.threads[t].pc == Idle && s.Refs(n) < SHOULD_BE_ON_FREELIST
    requires n in s.threads[t].hand
    ensures var s' := Alone(Apply(s, t, Add(n)), t, 5);
            && s'.threads[t] == Thread(Idle, s.threads[t].hand - {n})
            && (s.Refs(n) == 0 ==> s'.head == Some(n) && s'.Next(n) == s.head && s'.Refs(n) == 1)
            && (s.Refs(n) != 0 ==> s'.head == s.head && s'.Refs(n) == s.Refs(n) + SHOULD_BE_ON_FREELIST)
  {
    var s0 := Apply(s, t, Add(n));
    var s1 := Atomic(s0, t);
    assert Alone(s0, t, 5) == Alone(s1, t, 4);
    if s.Refs(n) == 0 {
      var s2 := Atomic(s1, t);
      var s3 := Atomic(s2, t);
      var s4 := Atomic(s3, t);
      assert s2.threads[t].pc == PushLink(n, s.head, Return);
      assert s3.threads[t].pc == PushRefs(n, s.head, Return) && s3.Next(n) == s.head;
      assert s4.threads[t].pc == PushCas(n, s.head, Return) && s4.Refs(n) == 1;
      var s5 := Atomic(s4, t);
      assert s5.threads[t].pc == Idle && s5.head == Some(n);
      assert Alone(s1, t, 4) == Alone(s2, t, 3) == Alone(s3, t, 2) == Alone(s4, t, 1) == Alone(s5, t, 0);
    }
  }
}
