module RpcMemory {
  /** Received arguments in memory: slots of eight bytes, and what their pointers lead to. */

  import opened Wrappers
  import opened ByteStrings
  import opened PackedSeq
  import opened Arena

  /** What each address holds. */
  type Memory = nat -> byte

  function ByteAt(m: Memory, a: nat): byte { m(a) }

  function Load(m: Memory, at: nat, n: nat): (b: seq<byte>)
    ensures |b| == n
  {
    seq(n, i requires 0 <= i < n => m(at + i))
  }

  function Store(m: Memory, at: nat, b: seq<byte>): Memory {
    (a: nat) => if at <= a < at + |b| then b[a - at] else m(a)
  }

  function Pointer(m: Memory, at: nat): nat { Value(Load(m, at, 8)) }

  /** `DLTensor`: data 0, device 8, ndim 16, dtype 20, shape 24, strides 32, byte_offset 40. */
  const TensorSize := 48

  predicate HoldsTensor(m: Memory, p: nat, t: Tensor) {
    && Load(m, p, 8) == Bytes(t.data, 8) && Load(m, p + 8, 8) == DeviceBytes(t.device)
    && Load(m, p + 16, 4) == Bytes(|t.shape|, 4) && Load(m, p + 20, 4) == DTypeBytes(t.dtype)
    && Load(m, Pointer(m, p + 24), 8 * |t.shape|) == Words(t.shape, 8)
    && Load(m, p + 32, 8) == Bytes(0, 8) && Load(m, p + 40, 8) == Bytes(t.byteOffset, 8) && !t.strides
  }

  /** The slot, with what it points to, holds the argument. */
  predicate HoldsArg(m: Memory, slot: nat, a: Arg) {
    match a
    case Number(_, bits) => Load(m, slot, 8) == Bytes(bits, 8)
    case TypeArg(t) => Load(m, slot, 4) == DTypeBytes(t)
    case DeviceArg(d) => Load(m, slot, 8) == DeviceBytes(d)
    case Handle(_, h) => Load(m, slot, 8) == Bytes(h, 8)
    case Null => Load(m, slot, 8) == Bytes(0, 8)
    case Str(chars) => Load(m, Pointer(m, slot), |chars| + 1) == chars + [0]
    case ByteArray(data) =>
      var p := Pointer(m, slot);
      Load(m, p + 8, 8) == Bytes(|data|, 8) && Load(m, Pointer(m, p), |data|) == data
    case TensorArg(t) => HoldsTensor(m, Pointer(m, slot), t)
    case NDArray => false
    case Other(_) => false
  }

  /** A range of addresses. */
  datatype Range = Range(at: nat, size: nat)

  /** The slot and everything it leads to. */
  function Footprint(m: Memory, slot: nat, a: Arg): seq<Range> {
    [Range(slot, 8)] + Behind(m, Pointer(m, slot), a)
  }

  function Behind(m: Memory, p: nat, a: Arg): seq<Range> {
    match a
    case Str(chars) => [Range(p, |chars| + 1)]
    case ByteArray(data) => [Range(p, 16), Range(Pointer(m, p), |data|)]
    case TensorArg(t) => [Range(p, TensorSize), Range(Pointer(m, p + 24), 8 * |t.shape|)]
    case Number(_, _) => []
    case TypeArg(_) => []
    case DeviceArg(_) => []
    case Handle(_, _) => []
    case Null => []
    case NDArray => []
    case Other(_) => []
  }

  predicate Same(m: Memory, m': Memory, r: Range) {
    forall a: nat | r.at <= a < r.at + r.size :: ByteAt(m', a) == ByteAt(m, a)
  }

  lemma SameLoad(m: Memory, m': Memory, r: Range, at: nat, n: nat)
    requires Same(m, m', r) && r.at <= at && at + n <= r.at + r.size
    ensures Load(m', at, n) == Load(m, at, n)
  {
    forall i | 0 <= i < n ensures Load(m', at, n)[i] == Load(m, at, n)[i] {
      assert ByteAt(m', at + i) == ByteAt(m, at + i);
    }
  }

  ghost predicate AllSame(m: Memory, m': Memory, rs: seq<Range>) { forall r <- rs :: Same(m, m', r) }

  /** Changes elsewhere leave an argument as it is. */
  lemma ArgStays(m: Memory, m': Memory, slot: nat, a: Arg)
    requires HoldsArg(m, slot, a) && AllSame(m, m', Footprint(m, slot, a))
    ensures HoldsArg(m', slot, a) && Footprint(m', slot, a) == Footprint(m, slot, a)
  {
    hide Bytes, Words, DeviceBytes, DTypeBytes, Value, Load, Same;
    var rs := Footprint(m, slot, a);
    assert rs[0] in rs;
    SameLoad(m, m', rs[0], slot, 8);
    SameLoad(m, m', rs[0], slot, 4);
    var p := Pointer(m, slot);
    match a
    case Str(chars) =>
      assert rs[1] in rs;
      SameLoad(m, m', rs[1], p, |chars| + 1);
    case ByteArray(data) =>
      assert rs[1] in rs && rs[2] in rs;
      SameLoad(m, m', rs[1], p, 8);
      SameLoad(m, m', rs[1], p + 8, 8);
      SameLoad(m, m', rs[2], Pointer(m, p), |data|);
    case TensorArg(t) =>
      assert rs[1] in rs && rs[2] in rs;
      TensorStays(m, m', p, t);
    case Number(_, _) =>
    case TypeArg(_) =>
    case DeviceArg(_) =>
    case Handle(_, _) =>
    case Null =>
  }

  lemma TensorStays(m: Memory, m': Memory, p: nat, t: Tensor)
    requires HoldsTensor(m, p, t) && Same(m, m', Range(p, TensorSize))
    requires Same(m, m', Range(Pointer(m, p + 24), 8 * |t.shape|))
    ensures HoldsTensor(m', p, t) && Pointer(m', p + 24) == Pointer(m, p + 24)
  {
    hide Bytes, Words, DeviceBytes, DTypeBytes, Value, Same, Load;
    var r := Range(p, TensorSize);
    SameLoad(m, m', r, p, 8);
    SameLoad(m, m', r, p + 8, 8);
    SameLoad(m, m', r, p + 16, 4);
    SameLoad(m, m', r, p + 20, 4);
    SameLoad(m, m', r, p + 24, 8);
    SameLoad(m, m', r, p + 32, 8);
    SameLoad(m, m', r, p + 40, 8);
    SameLoad(m, m', Range(Pointer(m, p + 24), 8 * |t.shape|), Pointer(m, p + 24), 8 * |t.shape|);
  }

  lemma LoadStored(m: Memory, at: nat, b: seq<byte>)
    ensures Load(Store(m, at, b), at, |b|) == b
  {
  }

  lemma LoadOther(m: Memory, at: nat, b: seq<byte>, from: nat, n: nat)
    requires Apart(from, n, at, |b|)
    ensures Load(Store(m, at, b), from, n) == Load(m, from, n)
  {
  }

  /** Writes to addresses that `kept` excludes leave the others. */
  lemma StoreKeeps(m: Memory, m1: Memory, at: nat, b: seq<byte>, kept: iset<nat>)
    requires (forall x <- kept :: ByteAt(m1, x) == ByteAt(m, x)) && forall x: nat | at <= x < at + |b| :: x !in kept
    ensures forall x <- kept :: ByteAt(Store(m1, at, b), x) == ByteAt(m, x)
  {
  }
}
