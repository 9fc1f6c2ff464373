module ThreadCounting {
  /** Sums over what every thread contributes, and sizes of index ranges. */

  type Tid = nat

  function Sum<T>(ts: seq<T>, f: T -> nat): nat {
    if ts == [] then 0 else f(ts[0]) + Sum(ts[1..], f)
  }

  /** Changing what one thread does changes the sum by that thread's difference. */
  lemma {:induction false} SumUpdate<T>(ts: seq<T>, t: Tid, v: T, f: T -> nat)
    requires t < |ts|
    ensures Sum(ts[t := v], f) + f(ts[t]) == Sum(ts, f) + f(v)
    ensures Sum(ts, f) >= f(ts[t])
  {
    if t == 0 {
      assert ts[t := v][1..] == ts[1..];
    } else {
      assert ts[t := v][1..] == ts[1..][t - 1 := v];
      SumUpdate(ts[1..], t - 1, v, f);
    }
  }

  lemma {:induction false} SumZero<T>(ts: seq<T>, f: T -> nat)
    requires forall t | 0 <= t < |ts| :: f(ts[t]) == 0
    ensures Sum(ts, f) == 0
  {
    if ts != [] {
      assert forall t | 0 <= t < |ts[1..]| :: ts[1..][t] == ts[t + 1];
      SumZero(ts[1..], f);
    }
  }

  predicate Within(i: nat, lo: nat, hi: nat) { lo <= i < hi }

  /** The indices from `lo` up to but not including `hi`. */
  function Range(lo: nat, hi: nat): set<nat> { set i: nat | lo <= i < hi && Within(i, lo, hi) }

  lemma {:induction false} RangeSize(lo: nat, hi: nat)
    requires lo <= hi
    ensures |Range(lo, hi)| == hi - lo
    decreases hi
  {
    if lo < hi {
      RangeSize(lo, hi - 1);
      assert Range(lo, hi) == Range(lo, hi - 1) + {hi - 1};
    }
  }

  lemma {:induction false} SubsetSize<T>(a: set<T>, b: set<T>)
    requires a <= b
    ensures |a| <= |b|
  {
    assert b == a + (b - a);
  }
}
