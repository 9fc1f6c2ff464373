module ByteStrings {
  /** Bytes, numbers as bytes with the lowest first, and bytes written over others. */

  type byte = x: int | 0 <= x < 256

  function Power256(n: nat): nat { if n == 0 then 1 else 256 * Power256(n - 1) }

  /** The `n` bytes of a number, the lowest first. */
  function Bytes(v: nat, n: nat): (b: seq<byte>)
    ensures |b| == n
  {
    if n == 0 then [] else [v % 256] + Bytes(v / 256, n - 1)
  }

  function Value(b: seq<byte>): nat { if b == [] then 0 else b[0] + 256 * Value(b[1..]) }

  lemma {:induction false} BytesValue(v: nat, n: nat)
    requires v < Power256(n)
    ensures Value(Bytes(v, n)) == v
  {
    if n > 0 { BytesValue(v / 256, n - 1); }
  }

  lemma {:induction false} ValueBytes(b: seq<byte>)
    ensures Bytes(Value(b), |b|) == b && Value(b) < Power256(|b|)
  {
    if b != [] { ValueBytes(b[1..]); }
  }

  /** `bytes` written over `b` from `at` on. */
  function Put(b: seq<byte>, at: nat, bytes: seq<byte>): (r: seq<byte>)
    requires at + |bytes| <= |b|
    ensures |r| == |b|
  {
    b[..at] + bytes + b[at + |bytes|..]
  }

  lemma PutAt(b: seq<byte>, at: nat, bytes: seq<byte>, i: nat)
    requires at + |bytes| <= |b| && i < |b|
    ensures Put(b, at, bytes)[i] == if at <= i < at + |bytes| then bytes[i - at] else b[i]
  {
  }

  lemma PutApart(b: seq<byte>, at: nat, bytes: seq<byte>, from: nat, n: nat)
    requires at + |bytes| <= |b| && from + n <= |b|
    requires from + n <= at || at + |bytes| <= from || (from == at && n == |bytes|)
    ensures Put(b, at, bytes)[from..from + n] == if from == at && n == |bytes| then bytes else b[from..from + n]
  {
  }
}
