module PackedSeq {
  /** The wire format of argument lists: what is sent, what is refused, and reading it back. */

  import opened Wrappers
  import opened ByteStrings

  // Type codes.
  const KInt := 0
  const KUInt := 1
  const KFloat := 2
  const KOpaqueHandle := 3
  const KNull := 4
  const KDataType := 5
  const KDevice := 6
  const KTensor := 7
  const KModule := 9
  const KPackedFunc := 10
  const KStr := 11
  const KBytes := 12
  const KNDArray := 13

  datatype Status =
    | InvalidTypeCodeObject | InvalidTypeCodeNDArray | InvalidDLTensorFieldStride | UnknownTypeCode
    | UnknownRPCCode | CheckError | ReadError | WriteError

  datatype Device = Device(kind: nat, id: nat)

  datatype DType = DType(code: nat, bits: nat, lanes: nat)

  datatype Tensor = Tensor(data: nat, device: Device, dtype: DType, shape: seq<nat>, strides: bool, byteOffset: nat)

  /** Numbers stand for the bits of their words, signed or not. */
  datatype Arg =
    | Number(code: nat, bits: nat)            // an integer or a float
    | TypeArg(dtype: DType)
    | DeviceArg(device: Device)
    | Handle(code: nat, handle: nat)          // of a module, a function or opaque
    | Null
    | Str(chars: seq<byte>)
    | ByteArray(data: seq<byte>)
    | TensorArg(tensor: Tensor)
    | NDArray
    | Other(code: nat)

  function CodeOf(a: Arg): nat {
    match a
    case Number(code, _) => code
    case TypeArg(_) => KDataType
    case DeviceArg(_) => KDevice
    case Handle(code, _) => code
    case Null => KNull
    case Str(_) => KStr
    case ByteArray(_) => KBytes
    case TensorArg(_) => KTensor
    case NDArray => KNDArray
    case Other(code) => code
  }

  predicate NumberCode(code: nat) { code == KInt || code == KUInt || code == KFloat }

  predicate HandleCode(code: nat) { code == KOpaqueHandle || code == KModule || code == KPackedFunc }

  predicate KnownCode(code: nat) {
    NumberCode(code) || HandleCode(code) || code == KNull || code == KDataType || code == KDevice || code == KTensor
    || code == KStr || code == KBytes || code == KNDArray
  }

  const Word8 := 0x1_0000_0000_0000_0000
  const Word4 := 0x1_0000_0000

  predicate DeviceFits(d: Device) { d.kind < Word4 && d.id < Word4 }

  predicate DTypeFits(t: DType) { t.code < 0x100 && t.bits < 0x100 && t.lanes < 0x1_0000 }

  predicate TensorFits(t: Tensor) {
    && t.data < Word8 && DeviceFits(t.device) && DTypeFits(t.dtype) && t.byteOffset < Word8 && |t.shape| < 0x8000_0000
    && forall i | 0 <= i < |t.shape| :: t.shape[i] < Word8
  }

  /** The values that the C types can hold; strings end at their NUL. */
  predicate Fits(a: Arg) {
    match a
    case Number(code, bits) => NumberCode(code) && bits < Word8
    case TypeArg(t) => DTypeFits(t)
    case DeviceArg(d) => DeviceFits(d)
    case Handle(code, h) => HandleCode(code) && h < Word8
    case Null => true
    case Str(chars) => |chars| < Word8 && forall i | 0 <= i < |chars| :: chars[i] != 0
    case ByteArray(data) => |data| < Word8
    case TensorArg(t) => TensorFits(t)
    case NDArray => true
    case Other(code) => !KnownCode(code) && code < Word4
  }

  predicate AllFit(args: seq<Arg>) { |args| < 0x8000_0000 && forall i | 0 <= i < |args| :: Fits(args[i]) }

  /** What the sender throws for an argument; `client` when a client calls a server. */
  function Refusal(a: Arg, client: bool): Option<Status> {
    match a
    case Handle(code, _) =>
      if (code == KModule || code == KPackedFunc) && !client then Some(InvalidTypeCodeObject) else None
    case NDArray => Some(InvalidTypeCodeNDArray)
    case TensorArg(t) => if t.strides then Some(InvalidDLTensorFieldStride) else None
    case Other(_) => Some(UnknownTypeCode)
    case Number(_, _) => None
    case TypeArg(_) => None
    case DeviceArg(_) => None
    case Null => None
    case Str(_) => None
    case ByteArray(_) => None
  }

  /** The first refusal in a list. */
  function FirstRefusal(args: seq<Arg>, client: bool): Option<Status> {
    if args == [] then None
    else if Refusal(args[0], client).Some? then Refusal(args[0], client)
    else FirstRefusal(args[1..], client)
  }

  // ---------------------------------------------------------------------------
  // Bytes on the wire
  // ---------------------------------------------------------------------------

  function DeviceBytes(d: Device): seq<byte> { Bytes(d.kind, 4) + Bytes(d.id, 4) }

  function DTypeBytes(t: DType): seq<byte> { Bytes(t.code, 1) + Bytes(t.bits, 1) + Bytes(t.lanes, 2) }

  /** Numbers of `n` bytes each. */
  function Words(vs: seq<nat>, n: nat): (b: seq<byte>)
    ensures (n == 8 ==> |b| == 8 * |vs|) && (n == 4 ==> |b| == 4 * |vs|)
  {
    if vs == [] then [] else Bytes(vs[0], n) + Words(vs[1..], n)
  }

  function TensorBytes(t: Tensor): seq<byte> {
    Bytes(t.data, 8) + DeviceBytes(t.device) + Bytes(|t.shape|, 4) + DTypeBytes(t.dtype) + Words(t.shape, 8)
    + Bytes(t.byteOffset, 8)
  }

  function ArgBytes(a: Arg): seq<byte> {
    match a
    case Number(_, bits) => Bytes(bits, 8)
    case TypeArg(t) => DTypeBytes(t) + Bytes(0, 4)
    case DeviceArg(d) => DeviceBytes(d)
    case Handle(_, h) => Bytes(h, 8)
    case Null => []
    case Str(chars) => Bytes(|chars|, 8) + chars
    case ByteArray(data) => Bytes(|data|, 8) + data
    case TensorArg(t) => TensorBytes(t)
    case NDArray => []
    case Other(_) => []
  }

  function AllArgBytes(args: seq<Arg>): seq<byte> {
    if args == [] then [] else ArgBytes(args[0]) + AllArgBytes(args[1..])
  }

  function Codes(args: seq<Arg>): seq<nat> { seq(|args|, i requires 0 <= i < |args| => CodeOf(args[i])) }

  /** The count, all type codes, and then the values. */
  function SeqBytes(args: seq<Arg>): seq<byte> { Bytes(|args|, 4) + Words(Codes(args), 4) + AllArgBytes(args) }

  // ---------------------------------------------------------------------------
  // Reading
  // ---------------------------------------------------------------------------

  /** A value and the bytes behind it, or the end of the stream, or a refused type code. */
  datatype Got<T> = Got(value: T, rest: seq<byte>) | Short | Refused(status: Status)

  function TakeNumber(s: seq<byte>, n: nat): (r: Got<nat>)
    ensures !r.Refused? && (r.Got? <==> |s| >= n)
  {
    if |s| < n then Short else Got(Value(s[..n]), s[n..])
  }

  function TakeBytes(s: seq<byte>, n: nat): (r: Got<seq<byte>>)
    ensures !r.Refused? && (r.Got? <==> |s| >= n)
  {
    if |s| < n then Short else Got(s[..n], s[n..])
  }

  function TakeWords(s: seq<byte>, count: nat, n: nat): (r: Got<seq<nat>>)
    ensures !r.Refused? && (r.Got? ==> |r.value| == count)
    decreases count
  {
    if count == 0 then Got([], s)
    else if |s| < n then Short
    else match TakeWords(s[n..], count - 1, n)
         case Got(vs, rest) => Got([Value(s[..n])] + vs, rest)
         case Short => Short
         case Refused(status) => Refused(status)
  }

  /** What a device, a data type and a tensor's fields are when read from their bytes. */
  function DeviceFrom(b: seq<byte>): Device
    requires |b| == 8
  {
    Device(Value(b[..4]), Value(b[4..]))
  }

  function DTypeFrom(b: seq<byte>): DType
    requires |b| == 4
  {
    DType(Value(b[..1]), Value(b[1..2]), Value(b[2..]))
  }

  /** The fixed part of a tensor is 24 bytes: handle, device, number of dimensions and data type. */
  function TakeTensor(s: seq<byte>): (r: Got<Tensor>)
    ensures !r.Refused?
  {
    if |s| < 24 then Short
    else
      match TakeWords(s[24..], Value(s[16..20]), 8)
      case Short => Short
      case Refused(status) => Refused(status)
      case Got(shape, rest) =>
        if |rest| < 8 then Short
        else
          var t := Tensor(Value(s[..8]), DeviceFrom(s[8..16]), DTypeFrom(s[20..24]), shape, false, Value(rest[..8]));
          Got(t, rest[8..])
  }

  function TakeArg(code: nat, s: seq<byte>): Got<Arg> {
    if NumberCode(code) then
      (match TakeNumber(s, 8)
       case Got(v, rest) => Got(Number(code, v), rest)
       case Short => Short
       case Refused(status) => Refused(status))
    else if code == KDataType then
      if |s| < 8 then Short else Got(TypeArg(DTypeFrom(s[..4])), s[8..])
    else if code == KDevice then
      if |s| < 8 then Short else Got(DeviceArg(DeviceFrom(s[..8])), s[8..])
    else if HandleCode(code) then
      (match TakeNumber(s, 8)
       case Got(v, rest) => Got(Handle(code, v), rest)
       case Short => Short
       case Refused(status) => Refused(status))
    else if code == KNull then Got(Null, s)
    else if code == KStr || code == KBytes then
      (match TakeNumber(s, 8)
       case Short => Short
       case Refused(status) => Refused(status)
       case Got(len, rest) =>
         match TakeBytes(rest, len)
         case Short => Short
         case Refused(status) => Refused(status)
         case Got(b, rest') => Got(if code == KStr then Str(b) else ByteArray(b), rest'))
    else if code == KTensor then
      (match TakeTensor(s)
       case Got(t, rest) => Got(TensorArg(t), rest)
       case Short => Short
       case Refused(status) => Refused(status))
    else Refused(UnknownTypeCode)
  }

  function TakeArgs(codes: seq<nat>, s: seq<byte>): Got<seq<Arg>> {
    if codes == [] then Got([], s)
    else
      match TakeArg(codes[0], s)
      case Short => Short
      case Refused(status) => Refused(status)
      case Got(a, rest) =>
        match TakeArgs(codes[1..], rest)
        case Short => Short
        case Refused(status) => Refused(status)
        case Got(args, rest') => Got([a] + args, rest')
  }

  /** The count as the server reads it, for counts that are not negative. */
  function TakeSeq(s: seq<byte>): Got<seq<Arg>> {
    match TakeNumber(s, 4)
    case Short => Short
    case Refused(status) => Refused(status)
    case Got(n, rest) =>
      match TakeWords(rest, n, 4)
      case Short => Short
      case Refused(status) => Refused(status)
      case Got(codes, rest') => TakeArgs(codes, rest')
  }

  // ---------------------------------------------------------------------------
  // Round trip
  // ---------------------------------------------------------------------------

  lemma PowerOf(n: nat)
    ensures Power256(1) == 0x100 && Power256(2) == 0x1_0000 && Power256(4) == Word4 && Power256(8) == Word8
  {
    assert Power256(1) == 256 && Power256(2) == 256 * 256;
    assert Power256(4) == 256 * (256 * Power256(2));
    assert Power256(8) == 256 * (256 * (256 * (256 * Power256(4))));
  }

  lemma TakeWordsStep(s: seq<byte>, count: nat, n: nat, vs: seq<nat>, rest: seq<byte>)
    requires count > 0 && |s| >= n && TakeWords(s[n..], count - 1, n) == Got(vs, rest)
    ensures TakeWords(s, count, n) == Got([Value(s[..n])] + vs, rest)
  {
  }

  lemma WordsStep(v: nat, vs: seq<nat>, n: nat)
    ensures Words([v] + vs, n) == Bytes(v, n) + Words(vs, n)
  {
    assert ([v] + vs)[1..] == vs;
  }

  lemma {:induction false} WordsRoundTrip(vs: seq<nat>, n: nat, rest: seq<byte>)
    requires forall i | 0 <= i < |vs| :: vs[i] < Power256(n)
    ensures TakeWords(Words(vs, n) + rest, |vs|, n) == Got(vs, rest)
  {
    if vs == [] {
      assert Words(vs, n) + rest == rest;
    } else {
      hide Bytes, Value, Power256, TakeWords, Words;
      var s, tail := Words(vs, n) + rest, Words(vs[1..], n) + rest;
      assert [vs[0]] + vs[1..] == vs;
      WordsStep(vs[0], vs[1..], n);
      assert s[..n] == Bytes(vs[0], n) && s[n..] == tail;
      BytesValue(vs[0], n);
      WordsRoundTrip(vs[1..], n, rest);
      TakeWordsStep(s, |vs|, n, vs[1..], rest);
    }
  }

  lemma NoWords(s: seq<byte>)
    ensures TakeWords(s, 0, 8) == Got([], s) && Words([], 8) == [] && s[..0] == [] && s[0..] == s
  {
  }

  lemma TooFewWords(s: seq<byte>, count: nat)
    requires count > 0 && (|s| < 8 || !TakeWords(s[8..], count - 1, 8).Got?)
    ensures !TakeWords(s, count, 8).Got?
  {
  }

  /** The words of eight bytes that are taken, as bytes, are those that were there. */
  lemma {:induction false} WordsBack(s: seq<byte>, count: nat)
    ensures TakeWords(s, count, 8).Got? <==> |s| >= 8 * count
    ensures |s| >= 8 * count ==>
              var r := TakeWords(s, count, 8); s[..8 * count] == Words(r.value, 8) && r.rest == s[8 * count..]
    decreases count
  {
    hide Bytes, Value, TakeWords, Words;
    if count == 0 {
      NoWords(s);
    } else if |s| < 8 {
      TooFewWords(s, count);
    } else {
      var tail := s[8..];
      WordsBack(tail, count - 1);
      var r := TakeWords(tail, count - 1, 8);
      if |s| < 8 * count {
        TooFewWords(s, count);
      } else {
        TakeWordsStep(s, count, 8, r.value, r.rest);
        WordsStep(Value(s[..8]), r.value, 8);
        ValueBytes(s[..8]);
        assert s[..8 * count] == s[..8] + tail[..8 * (count - 1)];
        assert tail[8 * (count - 1)..] == s[8 * count..];
      }
    }
  }

  lemma NoWords4(s: seq<byte>)
    ensures TakeWords(s, 0, 4) == Got([], s) && Words([], 4) == [] && s[..0] == [] && s[0..] == s
  {
  }

  lemma TooFewWords4(s: seq<byte>, count: nat)
    requires count > 0 && (|s| < 4 || !TakeWords(s[4..], count - 1, 4).Got?)
    ensures !TakeWords(s, count, 4).Got?
  {
  }

  /** The same for words of four bytes. */
  lemma {:induction false} HalfWordsBack(s: seq<byte>, count: nat)
    ensures TakeWords(s, count, 4).Got? <==> |s| >= 4 * count
    ensures |s| >= 4 * count ==>
              var r := TakeWords(s, count, 4); s[..4 * count] == Words(r.value, 4) && r.rest == s[4 * count..]
    decreases count
  {
    hide Bytes, Value, TakeWords, Words;
    if count == 0 {
      NoWords4(s);
    } else if |s| < 4 {
      TooFewWords4(s, count);
    } else {
      var tail := s[4..];
      HalfWordsBack(tail, count - 1);
      var r := TakeWords(tail, count - 1, 4);
      if |s| < 4 * count {
        TooFewWords4(s, count);
      } else {
        TakeWordsStep(s, count, 4, r.value, r.rest);
        WordsStep(Value(s[..4]), r.value, 4);
        ValueBytes(s[..4]);
        assert s[..4 * count] == s[..4] + tail[..4 * (count - 1)];
        assert tail[4 * (count - 1)..] == s[4 * count..];
      }
    }
  }

  lemma NumberRoundTrip(v: nat, n: nat, rest: seq<byte>)
    requires v < Power256(n)
    ensures TakeNumber(Bytes(v, n) + rest, n) == Got(v, rest)
  {
    var s := Bytes(v, n) + rest;
    assert s[..n] == Bytes(v, n) && s[n..] == rest;
    BytesValue(v, n);
  }

  lemma DeviceRoundTrip(d: Device)
    requires DeviceFits(d)
    ensures |DeviceBytes(d)| == 8 && DeviceFrom(DeviceBytes(d)) == d
  {
    hide Bytes, Power256;
    PowerOf(0);
    var b := DeviceBytes(d);
    assert b[..4] == Bytes(d.kind, 4) && b[4..] == Bytes(d.id, 4);
    BytesValue(d.kind, 4);
    BytesValue(d.id, 4);
  }

  lemma DTypeRoundTrip(t: DType)
    requires DTypeFits(t)
    ensures |DTypeBytes(t)| == 4 && DTypeFrom(DTypeBytes(t)) == t
  {
    hide Bytes, Power256;
    PowerOf(0);
    var b := DTypeBytes(t);
    assert b[..1] == Bytes(t.code, 1) && b[1..2] == Bytes(t.bits, 1) && b[2..] == Bytes(t.lanes, 2);
    BytesValue(t.code, 1);
    BytesValue(t.bits, 1);
    BytesValue(t.lanes, 2);
  }

  lemma TensorRoundTrip(t: Tensor, rest: seq<byte>)
    requires TensorFits(t) && !t.strides
    ensures TakeTensor(TensorBytes(t) + rest) == Got(t, rest)
  {
    hide Bytes, Power256, DeviceBytes, DTypeBytes, DeviceFrom, DTypeFrom, Value, TakeWords, Words;
    PowerOf(0);
    DeviceRoundTrip(t.device);
    DTypeRoundTrip(t.dtype);
    var a, d, n, c := Bytes(t.data, 8), DeviceBytes(t.device), Bytes(|t.shape|, 4), DTypeBytes(t.dtype);
    var tail := Bytes(t.byteOffset, 8) + rest;
    var s := TensorBytes(t) + rest;
    assert s == a + d + n + c + (Words(t.shape, 8) + tail);
    assert s[..8] == a && s[8..16] == d && s[16..20] == n && s[20..24] == c && s[24..] == Words(t.shape, 8) + tail;
    BytesValue(t.data, 8);
    BytesValue(|t.shape|, 4);
    BytesValue(t.byteOffset, 8);
    WordsRoundTrip(t.shape, 8, tail);
    assert tail[..8] == Bytes(t.byteOffset, 8) && tail[8..] == rest;
  }

  lemma TextRoundTrip(b: seq<byte>, rest: seq<byte>)
    requires |b| < Word8
    ensures TakeNumber(Bytes(|b|, 8) + b + rest, 8) == Got(|b|, b + rest) && TakeBytes(b + rest, |b|) == Got(b, rest)
  {
    hide Bytes, Power256, Value;
    PowerOf(0);
    NumberRoundTrip(|b|, 8, b + rest);
    assert Bytes(|b|, 8) + b + rest == Bytes(|b|, 8) + (b + rest);
  }

  lemma ArgRoundTrip(a: Arg, client: bool, rest: seq<byte>)
    requires Fits(a) && Refusal(a, client) == None
    ensures TakeArg(CodeOf(a), ArgBytes(a) + rest) == Got(a, rest)
  {
    hide Bytes, Power256, TakeTensor, TensorBytes, DeviceFrom, DTypeFrom, DeviceBytes, DTypeBytes, TakeNumber,
        TakeBytes;
    PowerOf(0);
    var s := ArgBytes(a) + rest;
    match a
    case Number(_, bits) => NumberRoundTrip(bits, 8, rest);
    case TypeArg(t) =>
      DTypeRoundTrip(t);
      assert s[..4] == DTypeBytes(t) && s[8..] == rest;
    case DeviceArg(d) =>
      DeviceRoundTrip(d);
      assert s[..8] == DeviceBytes(d) && s[8..] == rest;
    case Handle(_, h) => NumberRoundTrip(h, 8, rest);
    case Null => assert s == rest;
    case Str(chars) => TextRoundTrip(chars, rest);
    case ByteArray(data) => TextRoundTrip(data, rest);
    case TensorArg(t) => TensorRoundTrip(t, rest);
  }

  lemma FirstArg(args: seq<Arg>, rest: seq<byte>)
    requires args != []
    ensures AllArgBytes(args) + rest == ArgBytes(args[0]) + (AllArgBytes(args[1..]) + rest)
    ensures Codes(args) != [] && Codes(args)[0] == CodeOf(args[0]) && Codes(args)[1..] == Codes(args[1..])
  {
    hide ArgBytes, CodeOf;
  }

  lemma TakeArgsStep(codes: seq<nat>, s: seq<byte>, a: Arg, rest: seq<byte>, args: seq<Arg>, rest': seq<byte>)
    requires codes != [] && TakeArg(codes[0], s) == Got(a, rest) && TakeArgs(codes[1..], rest) == Got(args, rest')
    ensures TakeArgs(codes, s) == Got([a] + args, rest')
  {
  }

  lemma {:induction false} ArgsRoundTrip(args: seq<Arg>, client: bool, rest: seq<byte>)
    requires (forall i | 0 <= i < |args| :: Fits(args[i])) && FirstRefusal(args, client) == None
    ensures TakeArgs(Codes(args), AllArgBytes(args) + rest) == Got(args, rest)
  {
    if args == [] {
      assert AllArgBytes(args) + rest == rest;
    } else {
      var tail := AllArgBytes(args[1..]) + rest;
      FirstArg(args, rest);
      assert FirstRefusal(args[1..], client) == None && Refusal(args[0], client) == None;
      hide ArgBytes, TakeArg, Refusal, Fits, TakeArgs, AllArgBytes, Codes;
      ArgRoundTrip(args[0], client, tail);
      ArgsRoundTrip(args[1..], client, rest);
      assert [args[0]] + args[1..] == args;
      TakeArgsStep(Codes(args), AllArgBytes(args) + rest, args[0], tail, args[1..], rest);
    }
  }

  lemma CodesFit(args: seq<Arg>)
    requires AllFit(args)
    ensures forall i | 0 <= i < |Codes(args)| :: Codes(args)[i] < Word4
  {
    forall i | 0 <= i < |args| ensures CodeOf(args[i]) < Word4 { assert Fits(args[i]); }
  }

  /** Every list that the sender accepts is read back as it was, and just the bytes that were sent are consumed. */
  lemma SeqRoundTrip(args: seq<Arg>, client: bool, rest: seq<byte>)
    requires AllFit(args) && FirstRefusal(args, client) == None
    ensures TakeSeq(SeqBytes(args) + rest) == Got(args, rest)
  {
    hide Bytes, Power256, TakeArgs, TakeWords, Words, Codes;
    PowerOf(0);
    CodesFit(args);
    var codes := Codes(args);
    assert |codes| == |args| by { CodesLength(args); }
    var tail := AllArgBytes(args) + rest;
    assert SeqBytes(args) + rest == Bytes(|args|, 4) + (Words(codes, 4) + tail);
    NumberRoundTrip(|args|, 4, Words(codes, 4) + tail);
    WordsRoundTrip(codes, 4, tail);
    ArgsRoundTrip(args, client, rest);
  }

  lemma CodesLength(args: seq<Arg>)
    ensures |Codes(args)| == |args|
  {
  }

  /** A refused list is not mistaken for another: no reader accepts a type code that the sender never sends. */
  lemma UnknownCodeIsRefused(code: nat, s: seq<byte>)
    ensures TakeArg(code, s).Refused? <==> !KnownCode(code) || code == KNDArray
  {
  }
}
