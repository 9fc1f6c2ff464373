/**
 The receiving side of the RPC server: raw reads in whatever pieces the stream delivers
 them, and argument lists that are read into memory from the arena.
 */
module RpcReceiver {
  import opened Wrappers
  import opened ByteStrings
  import opened PackedSeq
  import opened Arena
  import opened RpcMemory

  /** `Exited` with no status is a clean shutdown. */
  datatype Running = Running | Exited(status: Option<Failure>)

  datatype Failure = Thrown(status: Status) | NoMemory

  /** An address past all pages, where the page allocator could put the next one. */
  function Beyond(pages: seq<Page>): (a: nat)
    ensures a % PageAlign == 0
    ensures forall p | 0 <= p < |pages| :: pages[p].address + pages[p].size <= a
  {
    if pages == [] then 0
    else
      var a := Beyond(pages[..|pages| - 1]);
      var e := pages[|pages| - 1].address + pages[|pages| - 1].size;
      if e <= a then a else NextAligned(e)
  }

  function NextAligned(e: nat): (a: nat)
    ensures a % PageAlign == 0 && e <= a
  {
    (e + PageAlign - 1) / PageAlign * PageAlign
  }

  lemma BeyondIsFresh(pages: seq<Page>, size: nat)
    ensures Fresh(pages, Beyond(pages), size)
  {
  }

  predicate InRegion(g: Region, x: nat) { g.at <= x < g.at + g.size }

  predicate Covered(given: seq<Region>, x: nat) { exists g <- given :: InRegion(g, x) }

  /** A range that the arena has handed out since it had handed out `before`. */
  predicate NewRange(r: Range, before: seq<Region>, given: seq<Region>) {
    exists k | |before| <= k < |given| :: given[k].at == r.at && given[k].size == r.size
  }

  /** Handed out before, and not in the slot: what receiving an argument into the slot leaves alone. */
  ghost predicate Kept(m: Memory, m': Memory, given: seq<Region>, slot: nat) {
    forall x: nat :: Covered(given, x) && !(slot <= x < slot + 8) ==> ByteAt(m', x) == ByteAt(m, x)
  }

  ghost predicate Placed(m: Memory, m': Memory, before: seq<Region>, given: seq<Region>, slot: nat, a: Arg) {
    && HoldsArg(m', slot, a) && Kept(m, m', before, slot) && Extends(before, given)
    && forall r <- Behind(m', Pointer(m', slot), a) :: NewRange(r, before, given)
  }

  predicate SlotCovered(given: seq<Region>, slot: nat) {
    exists g <- given :: g.at <= slot && slot + 8 <= g.at + g.size
  }

  predicate Extends(before: seq<Region>, given: seq<Region>) { |before| <= |given| && given[..|before|] == before }

  /** A region that the arena hands out is apart from the slot and from all that was handed out before. */
  lemma NewRegionApart(before: seq<Region>, at: nat, size: nat, slot: nat)
    requires SlotCovered(before, slot) && forall g <- before :: Apart(g.at, g.size, at, size)
    ensures Apart(slot, 8, at, size) || size == 0
    ensures forall x: nat | at <= x < at + size :: !Covered(before, x) && !(slot <= x < slot + 8)
  {
    var g :| g in before && g.at <= slot && slot + 8 <= g.at + g.size;
    assert Apart(g.at, g.size, at, size);
  }

  class Receiver {
    var input: seq<byte>
    var mem: Memory
    const arena: GenericArena
    var allowCleanShutdown: bool
    var state: Running

    ghost predicate Valid()
      reads this, arena
    {
      arena.Valid() && (state.Running? ==> arena.active != [])
    }

    constructor (arena: GenericArena, mem: Memory, input: seq<byte>)
      requires arena.Valid() && arena.active != []
      ensures Valid() && this.arena == arena && this.input == input && state.Running? && allowCleanShutdown
    {
      this.arena := arena;
      this.mem := mem;
      this.input := input;
      allowCleanShutdown := true;
      state := Running;
    }

    method ThrowError(status: Status)
      modifies this`state
      ensures state == Exited(Some(Thrown(status)))
    {
      state := Exited(Some(Thrown(status)));
    }

    /** `PosixRead` delivers some of the bytes that are there, and none at the end of the stream. */
    method PosixRead(size: nat) returns (b: seq<byte>)
      requires size > 0
      modifies this`input
      ensures old(input) == b + input && |b| <= size && (b == [] <==> old(input) == [])
    {
      if input == [] { return []; }
      var n: nat :| 1 <= n <= size && n <= |input|;
      b := input[..n];
      input := input[n..];
    }

    /** However the stream is cut, the bytes are the next ones; at its end the server shuts down or fails. */
    method ReadRawBytes(size: nat) returns (r: Option<seq<byte>>)
      requires Valid() && state.Running?
      modifies this`input, this`state, arena
      ensures Valid()
      ensures if |old(input)| >= size
              then r == Some(old(input)[..size]) && input == old(input)[size..] && state.Running?
                  && arena.given == old(arena.given)
              else r == None && state == Exited(if allowCleanShutdown then None else Some(Thrown(ReadError)))
    {
      var b: seq<byte> := [];
      while |b| < size
        invariant |b| <= size && b + input == old(input) && state.Running? && Valid()
        invariant arena.given == old(arena.given)
        decreases size - |b|
      {
        var part := PosixRead(size - |b|);
        if part == [] {
          if allowCleanShutdown {
            arena.FreeAll();
            state := Exited(None);
          } else {
            ThrowError(ReadError);
          }
          return None;
        }
        b := b + part;
      }
      return Some(b);
    }

    /** `Read` into a variable. */
    method ReadNumber(n: nat) returns (r: Option<nat>)
      requires Valid() && state.Running?
      modifies this`input, this`state, arena
      ensures Valid()
      ensures match TakeNumber(old(input), n)
              case Got(v, rest) => r == Some(v) && input == rest && state.Running? && arena.given == old(arena.given)
              case Short => r == None && state == Exited(if allowCleanShutdown then None else Some(Thrown(ReadError)))
              case Refused(_) => true
    {
      var b := ReadRawBytes(n);
      return match b case None => None case Some(bytes) => Some(Value(bytes));
    }

    /** `ReadArray` into memory. */
    method ReadInto(at: nat, n: nat) returns (ok: bool)
      requires Valid() && state.Running?
      modifies this`input, this`state, this`mem, arena
      ensures Valid()
      ensures if |old(input)| >= n
              then ok && input == old(input)[n..] && state.Running? && arena.given == old(arena.given)
                   && mem == Store(old(mem), at, old(input)[..n])
              else
                && !ok && mem == old(mem)
                && state == Exited(if allowCleanShutdown then None else Some(Thrown(ReadError)))
    {
      var b := ReadRawBytes(n);
      if b.None? { return false; }
      mem := Store(mem, at, b.value);
      return true;
    }

    /** Addresses fit a word; a page that would lie beyond is a failed allocation. */
    method ArenaAlloc(size: nat, align: nat) returns (r: Option<nat>)
      requires Valid() && state.Running? && align > 0 && PageAlign % align == 0
      modifies this`state, arena
      ensures Valid()
      ensures r.None? ==> state == Exited(Some(NoMemory))
      ensures r.Some? ==> state.Running? && r.value + size < Word8
                          && arena.given == old(arena.given) + [Region(r.value, size, align)]
                          && forall g <- old(arena.given) :: Apart(g.at, g.size, r.value, size)
    {
      BeyondIsFresh(arena.pages, Rounded(UpperAlign(arena.header, align) + size));
      var at := arena.Alloc(size, align, Beyond(arena.pages));
      if at + size >= Word8 {
        state := Exited(Some(NoMemory));
        return None;
      }
      return Some(at);
    }

    /** The outcome of receiving an argument into a slot. */
    twostate predicate Received(slot: nat, code: nat, new a: Option<Arg>)
      reads this, arena
    {
      && Valid() && allowCleanShutdown == old(allowCleanShutdown)
      && match TakeArg(code, old(input))
         case Short => a.None? && !state.Running? && (state == Exited(Some(NoMemory)) || state == AtEndOfStream())
         case Refused(status) => a.None? && state == Exited(Some(Thrown(status)))
         case Got(b, rest) =>
           if state.Running? then a == Some(b) && input == rest && InMemory(slot, b)
           else a.None? && state == Exited(Some(NoMemory))
    }

    function AtEndOfStream(): Running
      reads this
    {
      Exited(if allowCleanShutdown then None else Some(Thrown(ReadError)))
    }

    /** The argument is in memory, in the slot and in regions of its own, and nothing else has changed. */
    twostate predicate InMemory(slot: nat, new a: Arg)
      reads this, arena
    {
      Placed(old(mem), mem, old(arena.given), arena.given, slot, a)
    }

    method ReceiveWord(slot: nat, code: nat) returns (a: Option<Arg>)
      requires Valid() && state.Running? && (NumberCode(code) || HandleCode(code))
      modifies this`input, this`state, this`mem, arena
      ensures Received(slot, code, a)
    {
      hide Bytes, Value, Placed;
      var b := ReadRawBytes(8);
      if b.None? { return None; }
      mem := Store(mem, slot, b.value);
      WordPlaced(old(mem), arena.given, slot, b.value);
      return Some(if NumberCode(code) then Number(code, Value(b.value)) else Handle(code, Value(b.value)));
    }

    method ReceiveNull(slot: nat) returns (a: Option<Arg>)
      requires Valid() && state.Running?
      modifies this`mem
      ensures Received(slot, KNull, a)
    {
      hide Bytes, Placed, Value;
      mem := Store(mem, slot, Bytes(0, 8));
      WordPlaced(old(mem), arena.given, slot, Bytes(0, 8));
      return Some(Null);
    }

    method ReceiveDevice(slot: nat) returns (a: Option<Arg>)
      requires Valid() && state.Running?
      modifies this`input, this`state, this`mem, arena
      ensures Received(slot, KDevice, a)
    {
      hide DeviceFrom, DeviceBytes, Placed, Value;
      var b := ReadRawBytes(8);
      if b.None? { return None; }
      mem := Store(mem, slot, b.value);
      WordPlaced(old(mem), arena.given, slot, b.value);
      DeviceBack(b.value);
      return Some(DeviceArg(DeviceFrom(b.value)));
    }

    /** A data type is followed by padding. */
    method ReceiveType(slot: nat) returns (a: Option<Arg>)
      requires Valid() && state.Running?
      modifies this`input, this`state, this`mem, arena
      ensures Received(slot, KDataType, a)
    {
      hide DTypeFrom, DTypeBytes, Placed, Value;
      var b := ReadRawBytes(4);
      if b.None? { return None; }
      mem := Store(mem, slot, b.value);
      WordPlaced(old(mem), arena.given, slot, b.value);
      DTypeBack(b.value);
      var padding := ReadRawBytes(4);
      if padding.None? { return None; }
      return Some(TypeArg(DTypeFrom(b.value)));
    }

    /** A string goes behind its slot, with a NUL at its end. */
    method ReceiveStr(slot: nat) returns (a: Option<Arg>)
      requires Valid() && state.Running? && SlotCovered(arena.given, slot)
      modifies this`input, this`state, this`mem, arena
      ensures Received(slot, KStr, a)
    {
      hide Bytes, Value, SlotCovered, Placed, Apart, TakeTensor, DTypeFrom, DeviceFrom, GenericArena.Valid;
      var len := ReadNumber(8);
      if len.None? { return None; }
      var n := len.value;
      var str := ArenaAlloc(n + 1, 1);
      if str.None? { return None; }
      var p := str.value;
      mem := Store(mem, p + n, [0]);
      var text := input;
      var ok := ReadInto(p, n);
      if !ok { return None; }
      mem := Store(mem, slot, Bytes(p, 8));
      StrPlaced(old(mem), mem, old(arena.given), slot, p, text[..n]);
      return Some(Str(text[..n]));
    }

    /** A byte array is a pair of pointer and size, with the bytes behind it. */
    method ReceiveBytes(slot: nat) returns (a: Option<Arg>)
      requires Valid() && state.Running? && SlotCovered(arena.given, slot)
      modifies this`input, this`state, this`mem, arena
      ensures Received(slot, KBytes, a)
    {
      hide Bytes, Value, SlotCovered, Placed, Apart, TakeTensor, DTypeFrom, DeviceFrom, GenericArena.Valid;
      var len := ReadNumber(8);
      if len.None? { return None; }
      var n := len.value;
      var arr := ArenaAlloc(16, 8);
      if arr.None? { return None; }
      var data := ArenaAlloc(n, 1);
      if data.None? { return None; }
      var p, q := arr.value, data.value;
      mem := Store(mem, p + 8, Bytes(n, 8));
      mem := Store(mem, p, Bytes(q, 8));
      var bytes := input;
      var ok := ReadInto(q, n);
      if !ok { return None; }
      mem := Store(mem, slot, Bytes(p, 8));
      BytesPlaced(old(mem), mem, old(arena.given), slot, p, q, bytes[..n]);
      return Some(ByteArray(bytes[..n]));
    }

    /** The fields of a tensor before its shape. */
    method ReadFixedFields(p: nat, handle: nat) returns (ok: bool, ndim: nat)
      requires Valid() && state.Running?
      modifies this`input, this`state, this`mem, arena
      ensures ok ==> arena.given == old(arena.given)
      ensures Valid() && allowCleanShutdown == old(allowCleanShutdown)
      ensures if |old(input)| >= 16
              then ok && state.Running? && input == old(input)[16..] && ndim == Value(old(input)[8..12])
                   && mem == Store(Store(Store(Store(old(mem), p, Bytes(handle, 8)), p + 8, old(input)[..8]), p + 16,
                        old(input)[8..12]),
                                   p + 20, old(input)[12..16])
              else !ok && state == AtEndOfStream()
    {
      hide Bytes, Value, GenericArena.Valid;
      mem := Store(mem, p, Bytes(handle, 8));
      ok := ReadInto(p + 8, 8);
      if !ok { return false, 0; }
      assert |old(input)| >= 12 ==> input[..4] == old(input)[8..12];
      ok := ReadInto(p + 16, 4);
      if !ok { return false, 0; }
      assert |old(input)| >= 16 ==> input[..4] == old(input)[12..16];
      ok := ReadInto(p + 20, 4);
      if ok { TensorFieldsRead(old(mem), p, Bytes(handle, 8), old(input)); }
      ndim := Value(Load(mem, p + 16, 4));
    }

    /** The shape of a tensor, and the fields behind it. */
    method ReadShape(p: nat, q: nat, ndim: nat) returns (ok: bool)
      requires Valid() && state.Running?
      modifies this`input, this`state, this`mem, arena
      ensures Valid() && allowCleanShutdown == old(allowCleanShutdown)
      ensures ok ==> arena.given == old(arena.given)
      ensures var n := 8 * ndim;
              if |old(input)| >= n + 8
              then ok && state.Running? && input == old(input)[n + 8..]
                   && mem == Store(Store(Store(Store(old(mem), p + 24, Bytes(q, 8)), q, old(input)[..n]), p + 32,
                        Bytes(0, 8)),
                                   p + 40, old(input)[n..n + 8])
              else !ok && state == AtEndOfStream()
    {
      hide Bytes, GenericArena.Valid, Store;
      mem := Store(mem, p + 24, Bytes(q, 8));
      ok := ReadInto(q, 8 * ndim);
      if !ok { return false; }
      mem := Store(mem, p + 32, Bytes(0, 8));
      assert |input| >= 8 ==> input[..8] == old(input)[8 * ndim..8 * ndim + 8];
      ok := ReadInto(p + 40, 8);
    }

    /** The fields of a tensor, in the order of the wire. */
    method ReceiveTensor(slot: nat) returns (a: Option<Arg>)
      requires Valid() && state.Running? && SlotCovered(arena.given, slot)
      modifies this`input, this`state, this`mem, arena
      ensures Received(slot, KTensor, a)
    {
      hide Bytes, Value, SlotCovered, Placed, Apart, DTypeFrom, DeviceFrom, GenericArena.Valid, TakeWords, TakeTensor;
      hide Store;
      var start := input;
      var handle := ReadNumber(8);
      TensorShort(start);
      if handle.None? { return None; }
      var arr := ArenaAlloc(TensorSize, 8);
      if arr.None? { return None; }
      var p := arr.value;
      var fields := input;
      var ok, ndim := ReadFixedFields(p, handle.value);
      if !ok { return None; }
      assert ndim == Value(start[16..20]) by { assert fields[8..12] == start[16..20]; }
      var shape := ArenaAlloc(8 * ndim, 8);
      if shape.None? { return None; }
      var q := shape.value;
      ok := ReadShape(p, q, ndim);
      if !ok { return None; }
      mem := Store(mem, slot, Bytes(p, 8));
      TensorDone(old(mem), mem, old(arena.given), slot, p, q, start, fields);
      return Some(TensorArg(TakeTensor(start).value));
    }

    /** The switch on a type code. */
    method ReceiveArg(slot: nat, code: nat) returns (a: Option<Arg>)
      requires Valid() && state.Running? && SlotCovered(arena.given, slot)
      modifies this`input, this`state, this`mem, arena
      ensures Received(slot, code, a)
    {
      hide TakeArg, SlotCovered, Placed, GenericArena.Valid;
      if NumberCode(code) || HandleCode(code) {
        a := ReceiveWord(slot, code);
      } else if code == KDataType {
        a := ReceiveType(slot);
      } else if code == KDevice {
        a := ReceiveDevice(slot);
      } else if code == KNull {
        a := ReceiveNull(slot);
      } else if code == KStr {
        a := ReceiveStr(slot);
      } else if code == KBytes {
        a := ReceiveBytes(slot);
      } else if code == KTensor {
        a := ReceiveTensor(slot);
      } else {
        UnknownCodeIsRefused(code, input);
        UnknownIsUnknown(code, input);
        ThrowError(UnknownTypeCode);
        return None;
      }
    }

    /** The type codes, read into memory. */
    method ReadCodes(tcodes: nat, n: nat) returns (codes: Option<seq<nat>>)
      requires Valid() && state.Running?
      modifies this`input, this`state, this`mem, arena
      ensures Valid() && allowCleanShutdown == old(allowCleanShutdown)
      ensures match TakeWords(old(input), n, 4)
              case Got(cs, rest) =>
                && codes == Some(cs) && input == rest && state.Running? && arena.given == old(arena.given)
                && mem == Store(old(mem), tcodes, Words(cs, 4)) && |cs| == n
              case Short => codes == None && state == AtEndOfStream()
              case Refused(_) => true
    {
      hide TakeWords, Words, GenericArena.Valid;
      var start := input;
      HalfWordsBack(start, n);
      var ok := ReadInto(tcodes, 4 * n);
      if !ok { return None; }
      return Some(TakeWords(start, n, 4).value);
    }

    /** The arguments, one after the other, into their slots. */
    method ReceiveArgs(values: nat, codes: seq<nat>, ghost v: nat)
        returns (args: Option<seq<Arg>>, ghost cuts: seq<nat>)
      requires Valid() && state.Running? && v < |arena.given|
      requires arena.given[v].at == values && arena.given[v].size == 8 * |codes|
      modifies this`input, this`state, this`mem, arena
      ensures Valid() && allowCleanShutdown == old(allowCleanShutdown)
      ensures match TakeArgs(codes, old(input))
              case Short =>
                args.None? && !state.Running? && (state == Exited(Some(NoMemory)) || state == AtEndOfStream())
              case Refused(status) =>
                args.None? && (state == Exited(Some(Thrown(status))) || state == Exited(Some(NoMemory)))
              case Got(all, rest) =>
                if state.Running?
                then args == Some(all) && |all| == |codes| && input == rest
                    && Stored(mem, values, all, arena.given, v, cuts)
                     && Extends(old(arena.given), arena.given)
                else args.None? && state == Exited(Some(NoMemory))
    {
      hide TakeArg, GenericArena.Valid, Placed, StoredArg, RegionsApart, Kept;
      var done: seq<Arg> := [];
      cuts := [|arena.given|];
      assert codes[0..] == codes;
      PrependNothing(TakeArgs(codes, input));
      while |done| < |codes|
        invariant |done| <= |codes| && state.Running? && Valid() && allowCleanShutdown == old(allowCleanShutdown)
        invariant TakeArgs(codes, old(input)) == Prepend(done, TakeArgs(codes[|done|..], input))
        invariant Extends(old(arena.given), arena.given) && v < |arena.given|
        invariant arena.given[v] == old(arena.given)[v]
        invariant Stored(mem, values, done, arena.given, v, cuts) && cuts[|done|] == |arena.given|
        decreases |codes| - |done|
      {
        var i := |done|;
        ghost var s, before, m := input, arena.given, mem;
        RegionsOfArena(arena);
        SlotInRegion(before, v, values + 8 * i);
        assert codes[i..][0] == codes[i] && codes[i..][1..] == codes[i + 1..];
        var a := ReceiveArg(values + 8 * i, codes[i]);
        TakeArgsFirst(codes[i..], s);
        if a.None? { return None, cuts; }
        StoredGrows(m, mem, before, arena.given, values, done, v, cuts, a.value) by {
          PlacedExtends(m, mem, before, arena.given, values + 8 * i, a.value);
        }
        PlacedExtends(m, mem, before, arena.given, values + 8 * i, a.value);
        PrependMore(done, a.value, TakeArgs(codes[i + 1..], input));
        done := done + [a.value];
        cuts := cuts + [|arena.given|];
      }
      assert codes[|done|..] == [];
      assert done + [] == done;
      return Some(done), cuts;
    }

    /**
     The arguments are read as they were encoded, and are in memory, each in its slot and in
     regions of its own, when all of them have been read.
     */
    method RecvPackedSeq() returns (args: Option<seq<Arg>>, values: nat, ghost v: nat, ghost cuts: seq<nat>)
      requires Valid() && state.Running?
      modifies this`input, this`state, this`mem, arena
      ensures Valid() && allowCleanShutdown == old(allowCleanShutdown)
      ensures match TakeSeq(old(input))
              case Short =>
                args.None? && !state.Running? && (state == Exited(Some(NoMemory)) || state == AtEndOfStream())
              case Refused(status) =>
                args.None? && (state == Exited(Some(Thrown(status))) || state == Exited(Some(NoMemory)))
              case Got(all, rest) =>
                if state.Running?
                then args == Some(all) && input == rest
                     && (all != [] ==> Stored(mem, values, all, arena.given, v, cuts))
                else args.None? && state == Exited(Some(NoMemory))
    {
      hide TakeArgs, TakeWords, GenericArena.Valid, Stored;
      values, v, cuts := 0, 0, [];
      var count := ReadNumber(4);
      if count.None? { return None, values, v, cuts; }
      var n := count.value;
      if n == 0 {
        NoCodes(input);
        return Some([]), values, v, cuts;
      }
      v := |arena.given|;
      var slots := ArenaAlloc(8 * n, 8);
      if slots.None? { return None, values, v, cuts; }
      values := slots.value;
      var tcodes := ArenaAlloc(4 * n, 4);
      if tcodes.None? { return None, values, v, cuts; }
      var codes := ReadCodes(tcodes.value, n);
      if codes.None? { return None, values, v, cuts; }
      assert arena.given[v] == Region(values, 8 * n, 8);
      args, cuts := ReceiveArgs(values, codes.value, v);
    }
  }

  lemma NoCodes(s: seq<byte>)
    ensures TakeWords(s, 0, 4) == Got([], s) && TakeArgs([], s) == Got([], s)
  {
  }

  /** The result of taking the rest when `done` has been taken before it. */
  function Prepend(done: seq<Arg>, r: Got<seq<Arg>>): Got<seq<Arg>> {
    match r
    case Got(args, rest) => Got(done + args, rest)
    case Short => Short
    case Refused(status) => Refused(status)
  }

  lemma PrependNothing(r: Got<seq<Arg>>)
    ensures Prepend([], r) == r
  {
    if r.Got? { assert [] + r.value == r.value; }
  }

  lemma PrependMore(done: seq<Arg>, a: Arg, r: Got<seq<Arg>>)
    ensures Prepend(done + [a], r)
         == Prepend(done, match r
                          case Got(args, rest) => Got([a] + args, rest)
                          case Short => Short
                          case Refused(status) => Refused(status))
  {
    if r.Got? { assert done + [a] + r.value == done + ([a] + r.value); }
  }

  /** How the first argument decides about the rest. */
  lemma TakeArgsFirst(codes: seq<nat>, s: seq<byte>)
    requires codes != []
    ensures TakeArgs(codes, s)
         == match TakeArg(codes[0], s)
            case Short => Short
            case Refused(status) => Refused(status)
            case Got(a, rest) =>
              match TakeArgs(codes[1..], rest)
              case Got(args, rest') => Got([a] + args, rest')
              case Short => Short
              case Refused(status) => Refused(status)
  {
  }

  lemma SlotInRegion(given: seq<Region>, v: nat, slot: nat)
    requires v < |given| && given[v].at <= slot && slot + 8 <= given[v].at + given[v].size
    ensures SlotCovered(given, slot)
  {
  }

  lemma PlacedExtends(m: Memory, m': Memory, before: seq<Region>, given: seq<Region>, slot: nat, a: Arg)
    requires Placed(m, m', before, given, slot, a)
    ensures |before| <= |given| && forall k | 0 <= k < |before| :: given[k] == before[k]
  {
    assert forall k | 0 <= k < |before| :: given[k] == given[..|before|][k];
  }

  lemma UnknownIsUnknown(code: nat, s: seq<byte>)
    ensures TakeArg(code, s).Refused? ==> TakeArg(code, s).status == UnknownTypeCode
  {
  }

  // ---------------------------------------------------------------------------
  // Lists of arguments
  // ---------------------------------------------------------------------------

  /** The range is one of the regions from number `lo` up to `hi`. */
  predicate IsRegion(r: Range, given: seq<Region>, lo: nat, hi: nat) {
    exists k | lo <= k < hi && k < |given| :: given[k].at == r.at && given[k].size == r.size
  }

  /**
   The arguments are in the slots from `values` on, which are region `v`; what lies behind
   argument `j` are regions from `cuts[j]` up to `cuts[j + 1]`, all of them later.
   */
  ghost predicate Stored(m: Memory, values: nat, args: seq<Arg>, given: seq<Region>, v: nat, cuts: seq<nat>) {
    && |cuts| == |args| + 1 && v < cuts[0] && cuts[|args|] <= |given| && v < |given|
    && given[v].at == values && 8 * |args| <= given[v].size
    && (forall j | 0 <= j < |args| :: cuts[j] <= cuts[j + 1])
    && forall j | 0 <= j < |args| :: StoredArg(m, values + 8 * j, args[j], given, cuts[j], cuts[j + 1])
  }

  ghost predicate StoredArg(m: Memory, slot: nat, a: Arg, given: seq<Region>, lo: nat, hi: nat) {
    HoldsArg(m, slot, a) && forall r <- Behind(m, Pointer(m, slot), a) :: IsRegion(r, given, lo, hi)
  }

  predicate RegionsApart(given: seq<Region>) {
    forall i, j | 0 <= i < j < |given| :: Apart(given[i].at, given[i].size, given[j].at, given[j].size)
  }

  /** A later region is not touched, nor another slot, when an argument is received into a slot. */
  lemma StoredArgStays(m: Memory, m': Memory, before: seq<Region>, given: seq<Region>, slot: nat, v: nat, other: nat,
      a: Arg, lo: nat, hi: nat)
    requires RegionsApart(before) && Extends(before, given) && Kept(m, m', before, slot) && v < lo && hi <= |before|
             && v < |before|
    requires before[v].at <= slot && slot + 8 <= before[v].at + before[v].size
    requires before[v].at <= other && other + 8 <= before[v].at + before[v].size
             && (other + 8 <= slot || slot + 8 <= other)
    requires StoredArg(m, other, a, before, lo, hi)
    ensures StoredArg(m', other, a, given, lo, hi)
  {
    hide HoldsArg, Covered;
    forall x: nat | other <= x < other + 8 ensures ByteAt(m', x) == ByteAt(m, x) {
      assert InRegion(before[v], x);
      CoveredBy(before, v, x);
    }
    forall r <- Behind(m, Pointer(m, other), a) ensures Same(m, m', r) && IsRegion(r, given, lo, hi) {
      var k :| lo <= k < hi && k < |before| && before[k].at == r.at && before[k].size == r.size;
      assert given[k] == before[k] by { assert given[..|before|][k] == before[k]; }
      assert Apart(before[v].at, before[v].size, before[k].at, before[k].size);
      forall x: nat | r.at <= x < r.at + r.size ensures ByteAt(m', x) == ByteAt(m, x) {
        assert InRegion(before[k], x) && !(slot <= x < slot + 8);
        CoveredBy(before, k, x);
      }
    }
    hide Behind;
    assert Same(m, m', Range(other, 8));
    ArgStays(m, m', other, a);
    assert Footprint(m, other, a)[1..] == Behind(m, Pointer(m, other), a);
    assert Footprint(m', other, a)[1..] == Behind(m', Pointer(m', other), a);
  }

  lemma CoveredBy(given: seq<Region>, k: nat, x: nat)
    requires k < |given| && InRegion(given[k], x)
    ensures Covered(given, x)
  {
  }

  lemma RegionsOfArena(arena: GenericArena)
    requires arena.Valid()
    ensures RegionsApart(arena.given)
  {
  }

  lemma StoredGrows(m: Memory, m': Memory, before: seq<Region>, given: seq<Region>, values: nat, args: seq<Arg>,
      v: nat, cuts: seq<nat>, a: Arg)
    requires RegionsApart(before) && Stored(m, values, args, before, v, cuts) && cuts[|args|] == |before|
    requires 8 * |args| + 8 <= before[v].size && Placed(m, m', before, given, values + 8 * |args|, a)
    ensures Stored(m', values, args + [a], given, v, cuts + [|given|])
  {
    hide HoldsArg, Kept, Behind, RegionsApart;
    var n, args', cuts', slot := |args|, args + [a], cuts + [|given|], values + 8 * |args|;
    forall j | 0 <= j < n + 1 ensures StoredArg(m', values + 8 * j, args'[j], given, cuts'[j], cuts'[j + 1]) {
      if j < n {
        assert StoredArg(m, values + 8 * j, args[j], before, cuts[j], cuts[j + 1]);
        CutsOrder(cuts, n, 0, j);
        CutsOrder(cuts, n, j + 1, n);
        StoredArgStays(m, m', before, given, slot, v, values + 8 * j, args[j], cuts[j], cuts[j + 1]);
      } else {
        forall r <- Behind(m', Pointer(m', slot), a) ensures IsRegion(r, given, |before|, |given|) {
          assert NewRange(r, before, given);
        }
      }
    }
    assert given[v] == given[..|before|][v];
  }

  lemma {:induction false} CutsOrder(cuts: seq<nat>, n: nat, i: nat, j: nat)
    requires |cuts| == n + 1 && i <= j <= n && forall k | 0 <= k < n :: cuts[k] <= cuts[k + 1]
    ensures cuts[i] <= cuts[j]
    decreases j
  {
    if i < j { CutsOrder(cuts, n, i, j - 1); }
  }

  /** Different arguments have nothing in common in memory. */
  lemma ArgsAreApart(m: Memory, values: nat, args: seq<Arg>, given: seq<Region>, v: nat, cuts: seq<nat>, i: nat,
      j: nat, r: Range, r': Range)
    requires RegionsApart(given) && Stored(m, values, args, given, v, cuts) && i < j < |args|
    requires r in Footprint(m, values + 8 * i, args[i]) && r' in Footprint(m, values + 8 * j, args[j])
    ensures Apart(r.at, r.size, r'.at, r'.size) || r.size == 0 || r'.size == 0
  {
    hide HoldsArg, Behind;
    var n := |args|;
    assert StoredArg(m, values + 8 * i, args[i], given, cuts[i], cuts[i + 1]);
    assert StoredArg(m, values + 8 * j, args[j], given, cuts[j], cuts[j + 1]);
    CutsOrder(cuts, n, 0, i);
    CutsOrder(cuts, n, i + 1, j);
    CutsOrder(cuts, n, 0, j);
    if r in Behind(m, Pointer(m, values + 8 * i), args[i]) {
      var k :| cuts[i] <= k < cuts[i + 1] && k < |given| && given[k].at == r.at && given[k].size == r.size;
      if r' in Behind(m, Pointer(m, values + 8 * j), args[j]) {
        var l :| cuts[j] <= l < cuts[j + 1] && l < |given| && given[l].at == r'.at && given[l].size == r'.size;
        assert k < l;
      } else {
        assert Apart(given[v].at, given[v].size, given[k].at, given[k].size);
      }
    } else if r' in Behind(m, Pointer(m, values + 8 * j), args[j]) {
      var l :| cuts[j] <= l < cuts[j + 1] && l < |given| && given[l].at == r'.at && given[l].size == r'.size;
      assert Apart(given[v].at, given[v].size, given[l].at, given[l].size);
    }
  }

  /** When there are enough bytes for a tensor. */
  lemma TensorShort(s: seq<byte>)
    ensures TakeTensor(s).Got? <==> |s| >= 24 && |s| >= 32 + 8 * Value(s[16..20])
    ensures TakeTensor(s).Short? <==> !TakeTensor(s).Got?
    ensures TakeTensor(s).Got? ==> |TakeTensor(s).value.shape| == Value(s[16..20])
    ensures |s| >= 8 ==> Value(s[..8]) == TakeNumber(s, 8).value && Bytes(Value(s[..8]), 8) == s[..8]
  {
    hide Bytes, Value, DTypeFrom, DeviceFrom;
    if |s| >= 8 { ValueBytes(s[..8]); }
    if |s| >= 24 { WordsBack(s[24..], Value(s[16..20])); }
  }

  /** The parts of the stream behind the handle, and what they are of the tensor. */
  lemma TensorPartsMatch(s: seq<byte>, t: Tensor, fields: seq<byte>)
    requires |s| >= 32 + 8 * |t.shape| && fields == s[8..]
    ensures fields[..8] == s[8..16] && fields[8..12] == s[16..20] && fields[12..16] == s[20..24]
    ensures var rest, n := fields[16..], 8 * |t.shape|;
            rest[..n] == s[24..24 + n] && rest[n..n + 8] == s[24 + n..32 + n]
    ensures fields[16..][8 * |t.shape| + 8..] == s[32 + 8 * |t.shape|..]
  {
  }

  /** The writes for a string. */
  lemma StrPlaced(m: Memory, m': Memory, before: seq<Region>, slot: nat, p: nat, chars: seq<byte>)
    requires p < Word8 && SlotCovered(before, slot) && forall g <- before :: Apart(g.at, g.size, p, |chars| + 1)
    requires m' == Store(Store(Store(m, p + |chars|, [0]), p, chars), slot, Bytes(p, 8))
    ensures Placed(m, m', before, before + [Region(p, |chars| + 1, 1)], slot, Str(chars))
  {
    hide Bytes, Value, SlotCovered, Covered;
    PowerOf(0);
    NewRegionApart(before, p, |chars| + 1, slot);
    LoadStored(Store(Store(m, p + |chars|, [0]), p, chars), slot, Bytes(p, 8));
    BytesValue(p, 8);
    assert Load(m', p, |chars| + 1) == chars + [0];
    var given := before + [Region(p, |chars| + 1, 1)];
    assert given[|before|] == Region(p, |chars| + 1, 1);
  }

  /** Writes for arguments that the slot itself holds. */
  lemma WordPlaced(m: Memory, given: seq<Region>, slot: nat, b: seq<byte>)
    requires |b| <= 8
    ensures var m' := Store(m, slot, b);
            && (forall a: Arg :: HoldsArg(m', slot, a)
                                 && (a.Number? || a.Handle? || a.DeviceArg? || a.Null? || a.TypeArg?)
                                 ==> Placed(m, m', given, given, slot, a))
            && Load(m', slot, |b|) == b
            && (|b| == 8 ==>
                  forall code ::
                    HoldsArg(m', slot, Number(code, Value(b))) && HoldsArg(m', slot, Handle(code, Value(b))))
  {
    hide Bytes, Value;
    LoadStored(m, slot, b);
    ValueBytes(b);
  }

  /** What is handed out and not in the slot. */
  ghost function Outside(before: seq<Region>, slot: nat): iset<nat> {
    iset x: nat | Covered(before, x) && !(slot <= x < slot + 8)
  }

  lemma OutsideIsKept(m: Memory, m': Memory, before: seq<Region>, slot: nat)
    requires forall x <- Outside(before, slot) :: ByteAt(m', x) == ByteAt(m, x)
    ensures Kept(m, m', before, slot)
  {
    hide Covered;
    forall x: nat | Covered(before, x) && !(slot <= x < slot + 8) ensures ByteAt(m', x) == ByteAt(m, x) {
      assert x in Outside(before, slot);
    }
  }

  lemma NewIsOutside(before: seq<Region>, at: nat, size: nat, slot: nat)
    requires SlotCovered(before, slot) && forall g <- before :: Apart(g.at, g.size, at, size)
    ensures Apart(slot, 8, at, size) || size == 0
    ensures forall x: nat | at <= x < at + size :: x !in Outside(before, slot)
    ensures forall x: nat | slot <= x < slot + 8 :: x !in Outside(before, slot)
  {
    NewRegionApart(before, at, size, slot);
  }

  /** The writes for a byte array: what is loaded afterwards. */
  lemma BytesLoads(m: Memory, m': Memory, slot: nat, p: nat, q: nat, data: seq<byte>)
    requires p < Word8 && q < Word8 && Apart(slot, 8, p, 16) && (Apart(slot, 8, q, |data|) || data == [])
             && Apart(p, 16, q, |data|)
    requires m' == Store(Store(Store(Store(m, p + 8, Bytes(|data|, 8)), p, Bytes(q, 8)), q, data), slot, Bytes(p, 8))
    ensures Pointer(m', slot) == p && Pointer(m', p) == q && HoldsArg(m', slot, ByteArray(data))
  {
    hide Bytes, Value, Store, Load;
    PowerOf(0);
    var n := Bytes(|data|, 8);
    var m1 := Store(m, p + 8, n);
    var m2 := Store(m1, p, Bytes(q, 8));
    var m3 := Store(m2, q, data);
    LoadStored(m, p + 8, n);
    LoadOther(m1, p, Bytes(q, 8), p + 8, 8);
    LoadOther(m2, q, data, p + 8, 8);
    LoadOther(m3, slot, Bytes(p, 8), p + 8, 8);
    LoadStored(m1, p, Bytes(q, 8));
    LoadOther(m2, q, data, p, 8);
    LoadOther(m3, slot, Bytes(p, 8), p, 8);
    LoadStored(m2, q, data);
    if data != [] { LoadOther(m3, slot, Bytes(p, 8), q, |data|); }
    LoadStored(m3, slot, Bytes(p, 8));
    BytesValue(p, 8);
    BytesValue(q, 8);
  }

  lemma BytesKept(m: Memory, m': Memory, before: seq<Region>, slot: nat, p: nat, q: nat, data: seq<byte>)
    requires SlotCovered(before, slot)
    requires forall g <- before :: Apart(g.at, g.size, p, 16) && Apart(g.at, g.size, q, |data|)
    requires m' == Store(Store(Store(Store(m, p + 8, Bytes(|data|, 8)), p, Bytes(q, 8)), q, data), slot, Bytes(p, 8))
    ensures Kept(m, m', before, slot)
  {
    NewIsOutside(before, p, 16, slot);
    NewIsOutside(before, q, |data|, slot);
    hide Bytes, Store, Outside, SlotCovered, Apart;
    var kept := Outside(before, slot);
    var m1 := Store(m, p + 8, Bytes(|data|, 8));
    var m2 := Store(m1, p, Bytes(q, 8));
    var m3 := Store(m2, q, data);
    StoreKeeps(m, m, p + 8, Bytes(|data|, 8), kept);
    StoreKeeps(m, m1, p, Bytes(q, 8), kept);
    StoreKeeps(m, m2, q, data, kept);
    StoreKeeps(m, m3, slot, Bytes(p, 8), kept);
    OutsideIsKept(m, m', before, slot);
  }

  lemma BytesPlaced(m: Memory, m': Memory, before: seq<Region>, slot: nat, p: nat, q: nat, data: seq<byte>)
    requires p < Word8 && q < Word8 && SlotCovered(before, slot)
    requires (forall g <- before :: Apart(g.at, g.size, p, 16))
    requires forall g <- before + [Region(p, 16, 8)] :: Apart(g.at, g.size, q, |data|)
    requires m' == Store(Store(Store(Store(m, p + 8, Bytes(|data|, 8)), p, Bytes(q, 8)), q, data), slot, Bytes(p, 8))
    ensures Placed(m, m', before, before + [Region(p, 16, 8)] + [Region(q, |data|, 1)], slot, ByteArray(data))
  {
    var given := before + [Region(p, 16, 8)] + [Region(q, |data|, 1)];
    assert Apart(p, 16, q, |data|) by { assert Region(p, 16, 8) in before + [Region(p, 16, 8)]; }
    forall g <- before ensures Apart(g.at, g.size, q, |data|) { assert g in before + [Region(p, 16, 8)]; }
    NewIsOutside(before, p, 16, slot);
    NewIsOutside(before, q, |data|, slot);
    hide Store, Apart, SlotCovered, Kept, HoldsArg;
    BytesLoads(m, m', slot, p, q, data);
    BytesKept(m, m', before, slot, p, q, data);
    assert given[|before|] == Region(p, 16, 8) && given[|before| + 1] == Region(q, |data|, 1);
  }

  /** The fixed fields of a tensor as they come off the wire. */
  lemma TensorFieldsRead(m: Memory, p: nat, handle: seq<byte>, s: seq<byte>)
    requires |handle| == 8 && |s| >= 16
    ensures var m1 := Store(Store(Store(Store(m, p, handle), p + 8, s[..8]), p + 16, s[8..][..4]), p + 20,
            s[8..][4..][..4]);
            Load(m1, p + 16, 4) == s[8..12]
  {
    var m0, b, c := Store(Store(m, p, handle), p + 8, s[..8]), s[8..12], s[12..16];
    var m1 := Store(m0, p + 16, b);
    assert |b| == 4 && |c| == 4;
    LoadStored(m0, p + 16, b);
    LoadOther(m1, p + 20, c, p + 16, 4);
  }

  /** The bytes of a tensor are those of the value that is read from them. */
  lemma TensorBack(s: seq<byte>)
    requires TakeTensor(s).Got?
    ensures var t := TakeTensor(s).value;
            var n := 8 * |t.shape|;
            && |s| >= 32 + n && TakeTensor(s).rest == s[32 + n..] && !t.strides
            && s[..8] == Bytes(t.data, 8) && s[8..16] == DeviceBytes(t.device) && s[16..20] == Bytes(|t.shape|, 4)
            && s[20..24] == DTypeBytes(t.dtype) && s[24..24 + n] == Words(t.shape, 8)
            && s[24 + n..32 + n] == Bytes(t.byteOffset, 8)
  {
    hide Bytes, Value, Words, DeviceFrom, DTypeFrom, DeviceBytes, DTypeBytes, TakeWords;
    var t := TakeTensor(s).value;
    var n := 8 * |t.shape|;
    ValueBytes(s[..8]);
    DeviceBack(s[8..16]);
    ValueBytes(s[16..20]);
    DTypeBack(s[20..24]);
    WordsBack(s[24..], Value(s[16..20]));
    var rest := TakeWords(s[24..], Value(s[16..20]), 8).rest;
    assert rest == s[24..][n..] == s[24 + n..];
    assert s[24..][..n] == s[24..24 + n];
    ValueBytes(rest[..8]);
    assert rest[..8] == s[24 + n..32 + n] && rest[8..] == s[32 + n..];
  }

  /** The memory after receiving a tensor. */
  function TensorStores(m: Memory, slot: nat, p: nat, q: nat, t: Tensor): Memory {
    var m4 := Store(Store(Store(Store(m, p, Bytes(t.data, 8)), p + 8, DeviceBytes(t.device)), p + 16,
        Bytes(|t.shape|, 4)),
                    p + 20, DTypeBytes(t.dtype));
    var m6 := Store(Store(m4, p + 24, Bytes(q, 8)), q, Words(t.shape, 8));
    Store(Store(Store(m6, p + 32, Bytes(0, 8)), p + 40, Bytes(t.byteOffset, 8)), slot, Bytes(p, 8))
  }

  /** What is at each address after the stores for a tensor, and outside of them. */
  lemma TensorStoresAt(m: Memory, slot: nat, p: nat, q: nat, t: Tensor, x: nat)
    requires |DeviceBytes(t.device)| == 8 && |DTypeBytes(t.dtype)| == 4
    ensures ByteAt(TensorStores(m, slot, p, q, t), x)
         == if slot <= x < slot + 8 then Bytes(p, 8)[x - slot]
            else if p + 40 <= x < p + 48 then Bytes(t.byteOffset, 8)[x - p - 40]
            else if p + 32 <= x < p + 40 then Bytes(0, 8)[x - p - 32]
            else if q <= x < q + 8 * |t.shape| then Words(t.shape, 8)[x - q]
            else if p + 24 <= x < p + 32 then Bytes(q, 8)[x - p - 24]
            else if p + 20 <= x < p + 24 then DTypeBytes(t.dtype)[x - p - 20]
            else if p + 16 <= x < p + 20 then Bytes(|t.shape|, 4)[x - p - 16]
            else if p + 8 <= x < p + 16 then DeviceBytes(t.device)[x - p - 8]
            else if p <= x < p + 8 then Bytes(t.data, 8)[x - p]
            else ByteAt(m, x)
  {
    hide Bytes, Words, DeviceBytes, DTypeBytes, Store;
    var m1 := Store(m, p, Bytes(t.data, 8));
    var m2 := Store(m1, p + 8, DeviceBytes(t.device));
    var m3 := Store(m2, p + 16, Bytes(|t.shape|, 4));
    var m4 := Store(m3, p + 20, DTypeBytes(t.dtype));
    var m5 := Store(m4, p + 24, Bytes(q, 8));
    var m6 := Store(m5, q, Words(t.shape, 8));
    var m7 := Store(m6, p + 32, Bytes(0, 8));
    var m8 := Store(m7, p + 40, Bytes(t.byteOffset, 8));
    StoreAt(m, p, Bytes(t.data, 8), x);
    StoreAt(m1, p + 8, DeviceBytes(t.device), x);
    StoreAt(m2, p + 16, Bytes(|t.shape|, 4), x);
    StoreAt(m3, p + 20, DTypeBytes(t.dtype), x);
    StoreAt(m4, p + 24, Bytes(q, 8), x);
    StoreAt(m5, q, Words(t.shape, 8), x);
    StoreAt(m6, p + 32, Bytes(0, 8), x);
    StoreAt(m7, p + 40, Bytes(t.byteOffset, 8), x);
    StoreAt(m8, slot, Bytes(p, 8), x);
  }

  lemma StoreAt(m: Memory, at: nat, b: seq<byte>, x: nat)
    ensures ByteAt(Store(m, at, b), x) == if at <= x < at + |b| then b[x - at] else ByteAt(m, x)
  {
  }

  /** Loading byte by byte. */
  lemma LoadIs(m: Memory, at: nat, b: seq<byte>)
    requires forall i | 0 <= i < |b| :: ByteAt(m, at + i) == b[i]
    ensures Load(m, at, |b|) == b
  {
    assert forall i | 0 <= i < |b| :: Load(m, at, |b|)[i] == ByteAt(m, at + i);
  }

  lemma TensorPointers(m: Memory, slot: nat, p: nat, q: nat, t: Tensor)
    requires |DeviceBytes(t.device)| == 8 && |DTypeBytes(t.dtype)| == 4 && p < Word8 && q < Word8
    requires Apart(slot, 8, p, TensorSize) && (Apart(slot, 8, q, 8 * |t.shape|) || t.shape == [])
             && Apart(p, TensorSize, q, 8 * |t.shape|)
    ensures var m' := TensorStores(m, slot, p, q, t);
            Pointer(m', slot) == p && Pointer(m', p + 24) == q && Load(m', q, 8 * |t.shape|) == Words(t.shape, 8)
  {
    hide Bytes, Words, DeviceBytes, DTypeBytes, Value, TensorStores, Load;
    PowerOf(0);
    var m' := TensorStores(m, slot, p, q, t);
    forall i: nat | i < 8 ensures ByteAt(m', slot + i) == Bytes(p, 8)[i] && ByteAt(m', p + 24 + i) == Bytes(q, 8)[i] {
      TensorStoresAt(m, slot, p, q, t, slot + i);
      TensorStoresAt(m, slot, p, q, t, p + 24 + i);
    }
    forall i: nat | i < 8 * |t.shape| ensures ByteAt(m', q + i) == Words(t.shape, 8)[i] {
      TensorStoresAt(m, slot, p, q, t, q + i);
    }
    LoadIs(m', slot, Bytes(p, 8));
    LoadIs(m', p + 24, Bytes(q, 8));
    LoadIs(m', q, Words(t.shape, 8));
    BytesValue(p, 8);
    BytesValue(q, 8);
  }

  lemma TensorWords(m: Memory, slot: nat, p: nat, q: nat, t: Tensor)
    requires |DeviceBytes(t.device)| == 8 && |DTypeBytes(t.dtype)| == 4
    requires Apart(slot, 8, p, TensorSize) && Apart(p, TensorSize, q, 8 * |t.shape|)
    ensures var m' := TensorStores(m, slot, p, q, t);
            && Load(m', p, 8) == Bytes(t.data, 8) && Load(m', p + 8, 8) == DeviceBytes(t.device)
            && Load(m', p + 32, 8) == Bytes(0, 8) && Load(m', p + 40, 8) == Bytes(t.byteOffset, 8)
  {
    hide Bytes, Words, DeviceBytes, DTypeBytes, Value, TensorStores, Load;
    var m' := TensorStores(m, slot, p, q, t);
    forall i: nat | i < 8
      ensures ByteAt(m', p + i) == Bytes(t.data, 8)[i] && ByteAt(m', p + 8 + i) == DeviceBytes(t.device)[i]
      ensures ByteAt(m', p + 32 + i) == Bytes(0, 8)[i] && ByteAt(m', p + 40 + i) == Bytes(t.byteOffset, 8)[i]
    {
      TensorStoresAt(m, slot, p, q, t, p + i);
      TensorStoresAt(m, slot, p, q, t, p + 8 + i);
      TensorStoresAt(m, slot, p, q, t, p + 32 + i);
      TensorStoresAt(m, slot, p, q, t, p + 40 + i);
    }
    LoadIs(m', p, Bytes(t.data, 8));
    LoadIs(m', p + 8, DeviceBytes(t.device));
    LoadIs(m', p + 32, Bytes(0, 8));
    LoadIs(m', p + 40, Bytes(t.byteOffset, 8));
  }

  lemma TensorHalfWords(m: Memory, slot: nat, p: nat, q: nat, t: Tensor)
    requires |DeviceBytes(t.device)| == 8 && |DTypeBytes(t.dtype)| == 4
    requires Apart(slot, 8, p, TensorSize) && Apart(p, TensorSize, q, 8 * |t.shape|)
    ensures var m' := TensorStores(m, slot, p, q, t);
            Load(m', p + 16, 4) == Bytes(|t.shape|, 4) && Load(m', p + 20, 4) == DTypeBytes(t.dtype)
  {
    hide Bytes, Words, DeviceBytes, DTypeBytes, Value, TensorStores, Load;
    var m' := TensorStores(m, slot, p, q, t);
    forall i: nat | i < 4
      ensures ByteAt(m', p + 16 + i) == Bytes(|t.shape|, 4)[i] && ByteAt(m', p + 20 + i) == DTypeBytes(t.dtype)[i]
    {
      TensorStoresAt(m, slot, p, q, t, p + 16 + i);
      TensorStoresAt(m, slot, p, q, t, p + 20 + i);
    }
    LoadIs(m', p + 16, Bytes(|t.shape|, 4));
    LoadIs(m', p + 20, DTypeBytes(t.dtype));
  }

  lemma TensorLoads(m: Memory, slot: nat, p: nat, q: nat, t: Tensor)
    requires |DeviceBytes(t.device)| == 8 && |DTypeBytes(t.dtype)| == 4 && p < Word8 && q < Word8 && !t.strides
    requires Apart(slot, 8, p, TensorSize) && (Apart(slot, 8, q, 8 * |t.shape|) || t.shape == [])
             && Apart(p, TensorSize, q, 8 * |t.shape|)
    ensures var m' := TensorStores(m, slot, p, q, t);
            Pointer(m', slot) == p && Pointer(m', p + 24) == q && HoldsTensor(m', p, t)
  {
    hide Bytes, Words, DeviceBytes, DTypeBytes, Value, TensorStores, Load;
    TensorPointers(m, slot, p, q, t);
    TensorWords(m, slot, p, q, t);
    TensorHalfWords(m, slot, p, q, t);
  }

  lemma TensorPlaced(m: Memory, m': Memory, before: seq<Region>, slot: nat, p: nat, q: nat, t: Tensor)
    requires |DeviceBytes(t.device)| == 8 && |DTypeBytes(t.dtype)| == 4 && p < Word8 && q < Word8 && !t.strides
    requires SlotCovered(before, slot) && forall g <- before :: Apart(g.at, g.size, p, TensorSize)
    requires forall g <- before + [Region(p, TensorSize, 8)] :: Apart(g.at, g.size, q, 8 * |t.shape|)
    requires m' == TensorStores(m, slot, p, q, t)
    ensures Placed(m, m', before, before + [Region(p, TensorSize, 8)] + [Region(q, 8 * |t.shape|, 8)], slot,
            TensorArg(t))
  {
    var given := before + [Region(p, TensorSize, 8)] + [Region(q, 8 * |t.shape|, 8)];
    assert Apart(p, TensorSize, q, 8 * |t.shape|) by {
      assert Region(p, TensorSize, 8) in before + [Region(p, TensorSize, 8)];
    }
    forall g <- before ensures Apart(g.at, g.size, q, 8 * |t.shape|) {
      assert g in before + [Region(p, TensorSize, 8)];
    }
    NewIsOutside(before, p, TensorSize, slot);
    NewIsOutside(before, q, 8 * |t.shape|, slot);
    TensorLoads(m, slot, p, q, t);
    hide TensorStores, Apart, SlotCovered, HoldsTensor, Outside, Bytes, Words, DeviceBytes, DTypeBytes, Load;
    forall x <- Outside(before, slot) ensures ByteAt(m', x) == ByteAt(m, x) { TensorStoresAt(m, slot, p, q, t, x); }
    OutsideIsKept(m, m', before, slot);
    assert given[|before|] == Region(p, TensorSize, 8) && given[|before| + 1] == Region(q, 8 * |t.shape|, 8);
  }

  /** The tensor that was read is the one in memory, and its bytes are consumed. */
  lemma TensorDone(m: Memory, m': Memory, before: seq<Region>, slot: nat, p: nat, q: nat, s: seq<byte>,
      fields: seq<byte>)
    requires |s| >= 24 && |s| >= 32 + 8 * Value(s[16..20]) && fields == s[8..] && p < Word8 && q < Word8
    requires SlotCovered(before, slot) && forall g <- before :: Apart(g.at, g.size, p, TensorSize)
    requires forall g <- before + [Region(p, TensorSize, 8)] :: Apart(g.at, g.size, q, 8 * Value(s[16..20]))
    requires var m4 := Store(Store(Store(Store(m, p, Bytes(Value(s[..8]), 8)), p + 8, fields[..8]), p + 16,
             fields[8..12]), p + 20, fields[12..16]);
             var rest, n := fields[16..], 8 * Value(s[16..20]);
             var m8 := Store(Store(Store(Store(m4, p + 24, Bytes(q, 8)), q, rest[..n]), p + 32, Bytes(0, 8)), p + 40,
                 rest[n..n + 8]);
             m' == Store(m8, slot, Bytes(p, 8))
    ensures TakeTensor(s).Got?
    ensures var t, n := TakeTensor(s).value, 8 * Value(s[16..20]);
            && TakeTensor(s).rest == fields[16..][n + 8..]
            && Placed(m, m', before, before + [Region(p, TensorSize, 8)] + [Region(q, n, 8)], slot, TensorArg(t))
  {
    hide Bytes, Value, SlotCovered, Placed, Apart, DTypeFrom, DeviceFrom, DeviceBytes, DTypeBytes, TakeTensor, Words;
    TensorShort(s);
    var t := TakeTensor(s).value;
    TensorBack(s);
    TensorPartsMatch(s, t, fields);
    assert |s[8..16]| == 8 && |s[20..24]| == 4;
    TensorPlaced(m, m', before, slot, p, q, t);
  }

  lemma DeviceBack(b: seq<byte>)
    requires |b| == 8
    ensures DeviceBytes(DeviceFrom(b)) == b
  {
    ValueBytes(b[..4]);
    ValueBytes(b[4..]);
  }

  lemma DTypeBack(b: seq<byte>)
    requires |b| == 4
    ensures DTypeBytes(DTypeFrom(b)) == b
  {
    ValueBytes(b[..1]);
    ValueBytes(b[1..2]);
    ValueBytes(b[2..]);
  }

  // ---------------------------------------------------------------------------
  // A tensor by itself
  // ---------------------------------------------------------------------------

  /** Memory is as it was, but for what the arena has handed out and the `n` bytes at `at`. */
  ghost predicate Untouched(m: Memory, m': Memory, given: seq<Region>, at: nat, n: nat) {
    forall x: nat :: !Covered(given, x) && !(at <= x < at + n) ==> ByteAt(m', x) == ByteAt(m, x)
  }

  /** The memory after reading a tensor that no slot points to. */
  function TensorFields(m: Memory, p: nat, q: nat, handle: seq<byte>, fields: seq<byte>, n: nat): Memory
    requires |handle| == 8 && |fields| >= 24 + n
  {
    var m4 := Store(Store(Store(Store(m, p, handle), p + 8, fields[..8]), p + 16, fields[8..12]), p + 20,
        fields[12..16]);
    var rest := fields[16..];
    Store(Store(Store(Store(m4, p + 24, Bytes(q, 8)), q, rest[..n]), p + 32, Bytes(0, 8)), p + 40, rest[n..n + 8])
  }

  /** The tensor that was read is the one in memory, and nothing else has changed. */
  lemma TensorHeld(m: Memory, m': Memory, p: nat, q: nat, s: seq<byte>, fields: seq<byte>, x: nat)
    requires |s| >= 24 && |s| >= 32 + 8 * Value(s[16..20]) && fields == s[8..] && p < Word8 && q < Word8
    requires Apart(p, TensorSize, q, 8 * Value(s[16..20]))
    requires m' == TensorFields(m, p, q, Bytes(Value(s[..8]), 8), fields, 8 * Value(s[16..20]))
    ensures TakeTensor(s).Got? && HoldsTensor(m', p, TakeTensor(s).value)
    ensures !(p <= x < p + TensorSize) && !(q <= x < q + 8 * Value(s[16..20])) ==> ByteAt(m', x) == ByteAt(m, x)
  {
    hide Bytes, Value, DTypeFrom, DeviceFrom, DeviceBytes, DTypeBytes, TakeTensor, Words, HoldsTensor, Store;
    TensorShort(s);
    var t := TakeTensor(s).value;
    TensorBack(s);
    TensorPartsMatch(s, t, fields);
    assert |s[8..16]| == 8 && |s[20..24]| == 4;
    var far := p + TensorSize + q + 8 * |t.shape| + x + 1;
    var m1 := TensorStores(m, far, p, q, t);
    assert m1 == Store(m', far, Bytes(p, 8));
    TensorLoads(m, far, p, q, t);
    FarIsApart(m', far, Bytes(p, 8), Range(p, TensorSize));
    FarIsApart(m', far, Bytes(p, 8), Range(q, 8 * |t.shape|));
    TensorStays(m1, m', p, t);
    TensorStoresAt(m, far, p, q, t, x);
    StoreAt(m', far, Bytes(p, 8), x);
  }

  lemma FarIsApart(m: Memory, far: nat, b: seq<byte>, r: Range)
    requires r.at + r.size <= far
    ensures Same(Store(m, far, b), m, r)
  {
  }
}
