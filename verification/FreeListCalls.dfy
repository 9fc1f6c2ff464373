module FreeListCalls {
  /**
   The calls `add` and `try_get` as the program text writes them, over the shared
   words of the free list, with other threads running between any two atomic
   operations. Every operation is proved to be a step of the machine in `FreeList`.
   */

  import opened Wrappers
  import opened FreeList

  /** How an `add` has ended: the node is listed, or flagged for whoever drops the last reference to it. */
  datatype Added = Pushed(n: Node) | Deferred(n: Node)

  /** What a thread has done to the list: nodes it took off, how often it saw a null head, and the ends of its adds. */
  datatype Deeds = Deeds(pops: seq<Node>, empty: nat, added: seq<Added>)

  function Adding(d: Deeds, a: Added): Deeds { d.(added := d.added + [a]) }

  function Popping(d: Deeds, n: Node): Deeds { d.(pops := d.pops + [n]) }

  function SeeingNull(d: Deeds): Deeds { d.(empty := d.empty + 1) }

  /** The deeds once the next operation of thread `t` is performed. */
  function Next(d: Deeds, s: State, t: Tid): Deeds {
    if t >= |s.threads| then d
    else
      match s.threads[t].pc
      case FlagNode(n) => if s.Refs(n) == 0 then d else Adding(d, Deferred(n))
      case PushCas(n, h, _) => if s.head == h then Adding(d, Pushed(n)) else d
      case PushGiveUp(n, _, _) => if s.Refs(n) == 1 then d else Adding(d, Deferred(n))
      case PopLoad => if s.head.None? then SeeingNull(d) else d
      case PopCas(n, _) =>
        if s.head == Some(n) then Popping(d, n)
        else if s.head.None? then SeeingNull(d)
        else d
      case _ => d
  }

  class SharedFreeList {
    var freeListHead: Option<Node>
    var freeListRefs: map<Node, nat>
    var freeListNext: map<Node, Option<Node>>
    var threads: seq<Thread>
    ghost var deeds: seq<Deeds>

    constructor (count: nat)
      requires count + 1 < SHOULD_BE_ON_FREELIST
      ensures Init(View()) && Inv(View()) && |threads| == |deeds| == count
    {
      freeListHead, freeListRefs, freeListNext := None, map[], map[];
      threads := seq(count, _ => Thread(Idle, {}));
      deeds := seq(count, _ => Deeds([], 0, []));
      new;
      EveryRunKeepsInv([View()], 0);
    }

    ghost function View(): State
      reads this
    {
      State(freeListHead, freeListRefs, freeListNext, threads)
    }

    ghost predicate At(t: Tid, p: Pc)
      reads this
    {
      Inv(View()) && t < |threads| == |deeds| && threads[t].pc == p
    }

    /** Any other threads perform any number of their own operations. */
    method Others(t: Tid)
      requires Inv(View()) && t < |threads| == |deeds|
      modifies this
      ensures Inv(View()) && |deeds| == |threads| == |old(threads)| && deeds[t] == old(deeds)[t]
      ensures threads[t].pc == old(threads)[t].pc && old(threads)[t].hand <= threads[t].hand
    {
      var s := State(freeListHead, freeListRefs, freeListNext, threads);
      var steps: nat := *;
      while steps > 0
        invariant Inv(s) && Stays(old(View()), s, t) && |deeds| == |s.threads| && deeds[t] == old(deeds)[t]
      {
        var u: nat := *;
        var a: Action := *;
        if u != t && Enabled(s, u, a) {
          ApplyKeeps(s, u, a);
          OtherStays(s, u, a, t);
          if a.Step? { Note(u, s); }
          s := Apply(s, u, a);
        }
        steps := steps - 1;
      }
      freeListHead, freeListRefs, freeListNext, threads := s.head, s.refs, s.next, s.threads;
    }

    ghost method Note(u: Tid, s: State)
      requires u < |deeds|
      modifies this`deeds
      ensures |deeds| == |old(deeds)| && deeds == old(deeds)[u := Next(old(deeds)[u], s, u)]
    {
      deeds := deeds[u := Next(deeds[u], s, u)];
    }

    method Goto(t: Tid, p: Pc)
      requires t < |threads|
      modifies this`threads
      ensures View() == old(View()).Go(t, p)
    {
      threads := threads[t := threads[t].(pc := p)];
    }

    /** The next operation of the thread was performed, and is among its deeds. */
    twostate predicate Did(t: Tid)
      reads this
    {
      t < |old(deeds)| == |deeds| && deeds[t] == Next(old(deeds)[t], old(View()), t)
    }

    /** An `add` of the node has ended in one of the two ways, and the thread has done nothing else. */
    twostate predicate HasAdded(t: Tid, node: Node)
      reads this
    {
      && t < |old(deeds)| && t < |deeds|
      && (deeds[t] == Adding(old(deeds)[t], Pushed(node)) || deeds[t] == Adding(old(deeds)[t], Deferred(node)))
    }

    // -------------------------------------------------------------------------
    // The atomic operations
    // -------------------------------------------------------------------------

    method FetchAddFlag(t: Tid, node: Node) returns (before: nat)
      requires At(t, FlagNode(node))
      modifies this
      ensures before == old(View()).Refs(node)
      ensures At(t, if before == 0 then PushLoad(node, Return) else Idle) && threads[t].hand == old(threads)[t].hand
      ensures deeds[t] == if before == 0 then old(deeds)[t] else Adding(old(deeds)[t], Deferred(node))
      ensures View() == Atomic(old(View()), t) && Did(t)
    {
      Note(t, View());
      AtomicStepKeeps(View(), t);
      before := if node in freeListRefs then freeListRefs[node] else 0;
      freeListRefs := freeListRefs[node := Plus(before, SHOULD_BE_ON_FREELIST)];
      Goto(t, if before == 0 then PushLoad(node, Return) else Idle);
    }

    method LoadHeadForPush(t: Tid, node: Node, k: Cont) returns (head: Option<Node>)
      requires At(t, PushLoad(node, k))
      modifies this
      ensures head == old(freeListHead)
      ensures At(t, PushLink(node, head, k)) && threads[t].hand == old(threads)[t].hand
      ensures deeds[t] == old(deeds)[t]
      ensures View() == Atomic(old(View()), t) && Did(t)
    {
      Note(t, View());
      AtomicStepKeeps(View(), t);
      head := freeListHead;
      Goto(t, PushLink(node, head, k));
    }

    method StoreNext(t: Tid, node: Node, head: Option<Node>, k: Cont)
      requires At(t, PushLink(node, head, k))
      modifies this
      ensures At(t, PushRefs(node, head, k)) && threads[t].hand == old(threads)[t].hand
      ensures deeds[t] == old(deeds)[t]
      ensures View() == Atomic(old(View()), t) && Did(t)
    {
      Note(t, View());
      AtomicStepKeeps(View(), t);
      freeListNext := freeListNext[node := head];
      Goto(t, PushRefs(node, head, k));
    }

    method StoreRefs(t: Tid, node: Node, head: Option<Node>, k: Cont)
      requires At(t, PushRefs(node, head, k))
      modifies this
      ensures At(t, PushCas(node, head, k)) && threads[t].hand == old(threads)[t].hand
      ensures deeds[t] == old(deeds)[t]
      ensures View() == Atomic(old(View()), t) && Did(t)
    {
      Note(t, View());
      AtomicStepKeeps(View(), t);
      freeListRefs := freeListRefs[node := 1];
      Goto(t, PushCas(node, head, k));
    }

    /** On failure the expected value is overwritten with the head seen. */
    method CompareExchangePush(t: Tid, node: Node, expected: Option<Node>, k: Cont)
        returns (ok: bool, seen: Option<Node>)
      requires At(t, PushCas(node, expected, k))
      modifies this
      ensures ok == (old(freeListHead) == expected) && seen == old(freeListHead)
      ensures At(t, if ok then Continue(k) else PushGiveUp(node, seen, k)) && threads[t].hand == old(threads)[t].hand
      ensures deeds[t] == if ok then Adding(old(deeds)[t], Pushed(node)) else old(deeds)[t]
      ensures View() == Atomic(old(View()), t) && Did(t)
    {
      Note(t, View());
      AtomicStepKeeps(View(), t);
      ok, seen := freeListHead == expected, freeListHead;
      if ok { freeListHead := Some(node); }
      Goto(t, if ok then Continue(k) else PushGiveUp(node, seen, k));
    }

    method FetchAddGiveUp(t: Tid, node: Node, head: Option<Node>, k: Cont) returns (before: nat)
      requires At(t, PushGiveUp(node, head, k))
      modifies this
      ensures before == old(View()).Refs(node)
      ensures At(t, if before == 1 then PushLink(node, head, k) else Continue(k))
              && threads[t].hand == old(threads)[t].hand
      ensures deeds[t] == if before == 1 then old(deeds)[t] else Adding(old(deeds)[t], Deferred(node))
      ensures View() == Atomic(old(View()), t) && Did(t)
    {
      Note(t, View());
      AtomicStepKeeps(View(), t);
      before := if node in freeListRefs then freeListRefs[node] else 0;
      freeListRefs := freeListRefs[node := Plus(before, SHOULD_BE_ON_FREELIST - 1)];
      Goto(t, if before == 1 then PushLink(node, head, k) else Continue(k));
    }

    method LoadHead(t: Tid) returns (head: Option<Node>)
      requires At(t, PopLoad)
      modifies this
      ensures head == old(freeListHead)
      ensures At(t, Loop(head)) && threads[t].hand == old(threads)[t].hand
      ensures deeds[t] == if head.None? then SeeingNull(old(deeds)[t]) else old(deeds)[t]
      ensures View() == Atomic(old(View()), t) && Did(t)
    {
      Note(t, View());
      AtomicStepKeeps(View(), t);
      head := freeListHead;
      Goto(t, Loop(head));
    }

    method LoadRefs(t: Tid, node: Node) returns (refs: nat)
      requires At(t, PopRefs(node))
      modifies this
      ensures refs == old(View()).Refs(node)
      ensures At(t, if refs % SHOULD_BE_ON_FREELIST == 0 then PopLoad else PopPin(node, refs))
              && threads[t].hand == old(threads)[t].hand
      ensures deeds[t] == old(deeds)[t]
      ensures View() == Atomic(old(View()), t) && Did(t)
    {
      Note(t, View());
      AtomicStepKeeps(View(), t);
      refs := if node in freeListRefs then freeListRefs[node] else 0;
      Goto(t, if refs % SHOULD_BE_ON_FREELIST == 0 then PopLoad else PopPin(node, refs));
    }

    method CompareExchangeRefs(t: Tid, node: Node, refs: nat) returns (ok: bool)
      requires At(t, PopPin(node, refs))
      modifies this
      ensures ok == (old(View()).Refs(node) == refs)
      ensures At(t, if ok then PopNext(node) else PopLoad) && threads[t].hand == old(threads)[t].hand
      ensures deeds[t] == old(deeds)[t]
      ensures View() == Atomic(old(View()), t) && Did(t)
    {
      Note(t, View());
      AtomicStepKeeps(View(), t);
      ok := (if node in freeListRefs then freeListRefs[node] else 0) == refs;
      if ok { freeListRefs := freeListRefs[node := Plus(refs, 1)]; }
      Goto(t, if ok then PopNext(node) else PopLoad);
    }

    method LoadNext(t: Tid, node: Node) returns (next: Option<Node>)
      requires At(t, PopNext(node))
      modifies this
      ensures next == old(View()).Next(node)
      ensures At(t, PopCas(node, next)) && threads[t].hand == old(threads)[t].hand
      ensures deeds[t] == old(deeds)[t]
      ensures View() == Atomic(old(View()), t) && Did(t)
    {
      Note(t, View());
      AtomicStepKeeps(View(), t);
      next := if node in freeListNext then freeListNext[node] else None;
      Goto(t, PopCas(node, next));
    }

    method CompareExchangePop(t: Tid, node: Node, next: Option<Node>) returns (ok: bool, seen: Option<Node>)
      requires At(t, PopCas(node, next))
      modifies this
      ensures ok == (old(freeListHead) == Some(node)) && seen == old(freeListHead)
      ensures At(t, if ok then PopTake(node) else PopUnpin(node, seen)) && threads[t].hand == old(threads)[t].hand
      ensures deeds[t] == if ok then Popping(old(deeds)[t], node)
                          else if seen.None? then SeeingNull(old(deeds)[t]) else old(deeds)[t]
      ensures View() == Atomic(old(View()), t) && Did(t)
    {
      Note(t, View());
      AtomicStepKeeps(View(), t);
      ok, seen := freeListHead == Some(node), freeListHead;
      if ok { freeListHead := next; }
      Goto(t, if ok then PopTake(node) else PopUnpin(node, seen));
    }

    method FetchSubTwo(t: Tid, node: Node)
      requires At(t, PopTake(node))
      modifies this
      ensures At(t, Idle) && threads[t].hand == old(threads)[t].hand + {node}
      ensures deeds[t] == old(deeds)[t]
      ensures View() == Atomic(old(View()), t) && Did(t)
    {
      Note(t, View());
      AtomicStepKeeps(View(), t);
      var before := if node in freeListRefs then freeListRefs[node] else 0;
      freeListRefs := freeListRefs[node := Minus(before, 2)];
      threads := threads[t := Thread(Idle, threads[t].hand + {node})];
      assert threads == Atomic(old(View()), t).threads;
    }

    method FetchSubOne(t: Tid, node: Node, seen: Option<Node>) returns (before: nat)
      requires At(t, PopUnpin(node, seen))
      modifies this
      ensures before == old(View()).Refs(node)
      ensures At(t, if before == SHOULD_BE_ON_FREELIST + 1 then PushLoad(node, Resume(seen)) else Loop(seen))
              && threads[t].hand == old(threads)[t].hand
      ensures deeds[t] == old(deeds)[t]
      ensures View() == Atomic(old(View()), t) && Did(t)
    {
      Note(t, View());
      AtomicStepKeeps(View(), t);
      before := if node in freeListRefs then freeListRefs[node] else 0;
      freeListRefs := freeListRefs[node := Minus(before, 1)];
      Goto(t, if before == SHOULD_BE_ON_FREELIST + 1 then PushLoad(node, Resume(seen)) else Loop(seen));
    }

    method BeginAdd(t: Tid, node: Node)
      requires At(t, Idle) && node in threads[t].hand
      modifies this`threads
      ensures At(t, FlagNode(node)) && threads[t].hand == old(threads)[t].hand - {node}
      ensures View() == Apply(old(View()), t, Action.Add(node))
    {
      ApplyKeeps(View(), t, Action.Add(node));
      threads := threads[t := Thread(FlagNode(node), threads[t].hand - {node})];
      assert threads == Apply(old(View()), t, Action.Add(node)).threads;
    }

    method BeginTryGet(t: Tid)
      requires At(t, Idle)
      modifies this`threads
      ensures At(t, PopLoad) && threads[t].hand == old(threads)[t].hand
      ensures View() == Apply(old(View()), t, Action.TryGet)
    {
      ApplyKeeps(View(), t, Action.TryGet);
      Goto(t, PopLoad);
    }

    // -------------------------------------------------------------------------
    // The calls; `rounds` bounds how often a lost race is retried
    // -------------------------------------------------------------------------

    /** The node is put on the list, or left to whoever holds it still; just one of the two, once. */
    method AddKnowingRefcountIsZero(t: Tid, node: Node, k: Cont, rounds: nat) returns (finished: bool)
      requires At(t, PushLoad(node, k))
      modifies this
      ensures Inv(View()) && t < |threads| == |deeds| && old(threads)[t].hand <= threads[t].hand
      ensures finished ==> threads[t].pc == Continue(k)
      ensures if finished then HasAdded(t, node) else deeds[t] == old(deeds)[t]
    {
      hide Inv, Atomic, Next, SharedFreeList.View, SharedFreeList.Did;
      Others(t);
      var head := LoadHeadForPush(t, node, k);
      var left := rounds;
      while left > 0
        invariant At(t, PushLink(node, head, k)) && old(threads)[t].hand <= threads[t].hand
        invariant deeds[t] == old(deeds)[t]
      {
        Others(t);
        StoreNext(t, node, head, k);
        Others(t);
        StoreRefs(t, node, head, k);
        Others(t);
        var ok, seen := CompareExchangePush(t, node, head, k);
        if ok { return true; }
        head := seen;
        Others(t);
        var before := FetchAddGiveUp(t, node, head, k);
        if before != 1 { return true; }
        left := left - 1;
      }
      finished := false;
    }

    method Add(t: Tid, node: Node, rounds: nat) returns (finished: bool)
      requires At(t, Idle) && node in threads[t].hand
      modifies this
      ensures Inv(View()) && t < |threads| == |deeds|
      ensures finished ==> threads[t].pc == Idle && old(threads)[t].hand - {node} <= threads[t].hand
      ensures if finished then HasAdded(t, node) else deeds[t] == old(deeds)[t]
    {
      hide Inv, Atomic, Next, SharedFreeList.View, SharedFreeList.Did;
      BeginAdd(t, node);
      Others(t);
      var before := FetchAddFlag(t, node);
      if before == 0 {
        finished := AddKnowingRefcountIsZero(t, node, Return, rounds);
      } else {
        finished := true;
      }
    }

    /** What follows once the node is pinned: it is taken off the list, or the reference to it is dropped again. */
    method TakeOrRelease(t: Tid, node: Node, rounds: nat)
      returns (finished: bool, took: bool, head: Option<Node>)
      requires At(t, PopNext(node))
      modifies this
      ensures Inv(View()) && t < |threads| == |deeds| && old(threads)[t].hand <= threads[t].hand
      ensures deeds[t].pops == old(deeds)[t].pops + if took then [node] else []
      ensures deeds[t].empty >= old(deeds)[t].empty
      ensures took ==> finished && threads[t].pc == Idle && node in threads[t].hand
      ensures finished && !took ==>
                threads[t].pc == Loop(head) && (head.None? ==> deeds[t].empty > old(deeds)[t].empty)
    {
      hide Inv, Atomic, Next, SharedFreeList.View, SharedFreeList.Did;
      var next := LoadNext(t, node);
      Others(t);
      var ok, seen := CompareExchangePop(t, node, next);
      Others(t);
      if ok {
        FetchSubTwo(t, node);
        return true, true, seen;
      }
      finished, took, head := true, false, seen;
      var before := FetchSubOne(t, node, seen);
      if before == SHOULD_BE_ON_FREELIST + 1 {
        finished := AddKnowingRefcountIsZero(t, node, Resume(seen), rounds);
      }
    }

    /**
     A node is returned exactly when this call has taken it off the list, and belongs to the caller from then
     on; null is returned only after the head was seen to be null, and then nothing was taken.
     */
    method TryGet(t: Tid, rounds: nat) returns (finished: bool, got: Option<Node>)
      requires At(t, Idle)
      modifies this
      ensures Inv(View()) && t < |threads| == |deeds| && old(threads)[t].hand <= threads[t].hand
      ensures finished ==> threads[t].pc == Idle
      ensures deeds[t].pops == old(deeds)[t].pops + if finished && got.Some? then [got.value] else []
      ensures finished && got.Some? ==> got.value in threads[t].hand
      ensures finished && got.None? ==> deeds[t].empty > old(deeds)[t].empty
    {
      hide Inv, Atomic, Next, SharedFreeList.View, SharedFreeList.Did;
      got := None;
      BeginTryGet(t);
      Others(t);
      var head := LoadHead(t);
      var left := rounds;
      while left > 0 && head.Some?
        invariant At(t, Loop(head)) && old(threads)[t].hand <= threads[t].hand
        invariant deeds[t].pops == old(deeds)[t].pops && deeds[t].empty >= old(deeds)[t].empty
        invariant head.None? ==> deeds[t].empty > old(deeds)[t].empty
      {
        left := left - 1;
        var node := head.value;
        Others(t);
        var refs := LoadRefs(t, node);
        Others(t);
        if refs % SHOULD_BE_ON_FREELIST == 0 {
          head := LoadHead(t);
          continue;
        }
        var pinned := CompareExchangeRefs(t, node, refs);
        Others(t);
        if !pinned {
          head := LoadHead(t);
          continue;
        }
        var done, took;
        done, took, head := TakeOrRelease(t, node, left);
        if took { return true, Some(node); }
        if !done { return false, None; }
      }
      finished := head.None?;
    }
  }

  /** Thread `t` stays where it is; it may only be handed more nodes. */
  ghost predicate Stays(s: State, s': State, t: Tid) {
    && |s'.threads| == |s.threads|
    && (t < |s.threads| ==> s'.threads[t].pc == s.threads[t].pc && s.threads[t].hand <= s'.threads[t].hand)
  }

  lemma OtherStays(s: State, u: Tid, a: Action, t: Tid)
    requires u != t && Enabled(s, u, a)
    ensures Stays(s, Apply(s, u, a), t)
  {
  }

  lemma AtomicStepKeeps(s: State, t: Tid)
    requires Inv(s) && t < |s.threads| && !s.threads[t].pc.Idle?
    ensures Inv(Atomic(s, t))
  {
    ApplyKeeps(s, t, Step);
  }
}
