/** Remainders for positions in rings, and the cutting of an index range into blocks. */
module ModArithmetic {
  lemma ModUnique(a: int, n: int, q: int, r: int)
    requires 0 <= r < n && a == q * n + r
    ensures a % n == r && a / n == q
  {
    var d, e := a / n - q, a % n;
    assert a == (a / n) * n + e;
    assert (a / n) * n - q * n == d * n;
    if d >= 1 {
      MulAtLeast(d, n);
    } else if d <= -1 {
      MulAtLeast(-d, n);
    }
  }

  lemma MulAtLeast(d: int, n: int)
    requires d >= 1 && n >= 0
    ensures d * n >= n
  {
    assert d * n == (d - 1) * n + n;
  }

  lemma ModShift(x: int, c: int, n: int)
    requires n > 0
    ensures (x + c * n) % n == x % n
  {
    assert x + c * n == (x / n + c) * n + x % n;
    ModUnique(x + c * n, n, x / n + c, x % n);
  }

  /** A remainder may be taken early when the first divisor is a multiple of the second. */
  lemma ModThrough(a: int, b: int, m: int, n: int)
    requires m > 0 && n > 0 && m % n == 0
    ensures (a % m + b) % n == (a + b) % n
  {
    var c := (a / m) * (m / n);
    assert m == (m / n) * n;
    assert (a / m) * m == (a / m) * ((m / n) * n) == c * n;
    assert a % m + b == (a + b) + (-c) * n;
    ModShift(a + b, -c, n);
  }

  lemma ModAdd(a: int, b: int, n: int)
    requires n > 0
    ensures (a % n + b) % n == (a + b) % n
  {
    assert n % n == 0;
    ModThrough(a, b, n, n);
  }

  lemma ModEqual(a: int, b: int, n: int)
    requires n > 0 && a % n == b % n && -n < a - b < n
    ensures a == b
  {
    var d := a / n - b / n;
    assert (a / n) * n - (b / n) * n == d * n;
    if d >= 1 { MulAtLeast(d, n); } else if d <= -1 { MulAtLeast(-d, n); }
  }

  lemma Divides(m: int, n: int, c: int)
    requires n > 0 && m == c * n
    ensures m % n == 0
  {
    ModShift(0, c, n);
  }
}
