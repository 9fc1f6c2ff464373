module FuncRegistry {
  /**
   The table of named functions that is packed into one buffer: a count of two bytes, the
   names one after the other with a NUL behind each and one more at the end, and at the far
   end of the buffer the function pointers in the order of the names.
   */

  import opened Wrappers
  import opened ByteStrings

  /** A function pointer is its address. */
  datatype Entry = Entry(name: seq<byte>, func: nat)

  datatype Error = BufferTooSmall | AlreadyDefined | RegistryFull | NameNotFound | IndexInvalid

  const AverageNameBytes := 10

  // ---------------------------------------------------------------------------
  // What the buffer stands for
  // ---------------------------------------------------------------------------

  /** A name as C has it: no byte is the terminator. */
  predicate IsCString(name: seq<byte>) { forall i | 0 <= i < |name| :: name[i] != 0 }

  function Packed(es: seq<Entry>): seq<byte> {
    if es == [] then [] else es[0].name + [0] + Packed(es[1..])
  }

  /** Where the terminator of the whole list is. */
  function End(es: seq<Entry>): nat { 2 + |Packed(es)| }

  function Find(es: seq<Entry>, name: seq<byte>): Option<nat> {
    if es == [] then None
    else if es[0].name == name then Some(0)
    else match Find(es[1..], name)
         case None => None
         case Some(i) => Some(i + 1)
  }

  predicate GoodNames(es: seq<Entry>) {
    && (forall i | 0 <= i < |es| :: es[i].name != [] && IsCString(es[i].name))
    && forall i, j | 0 <= i < j < |es| :: es[i].name != es[j].name
  }

  function At(funcs: nat, p: nat, i: nat): nat { funcs + i * p }

  predicate FuncInPlace(b: seq<byte>, funcs: nat, p: nat, i: nat, func: nat) {
    && At(funcs, p, i) + p <= |b| && func < Power256(p)
    && b[At(funcs, p, i)..At(funcs, p, i) + p] == Bytes(func, p)
  }

  /** The count, the names with their terminators and the pointers are all where they belong. */
  predicate InPlace(b: seq<byte>, funcs: nat, p: nat, es: seq<Entry>) {
    && |es| < 0x1_0000 && 2 <= End(es) < |b|
    && b[..2] == Bytes(|es|, 2)
    && b[2..End(es)] == Packed(es) && b[End(es)] == 0
    && forall i | 0 <= i < |es| :: FuncInPlace(b, funcs, p, i, es[i].func)
  }

  /** The buffer stands for the entries, and the names end before the pointers begin. */
  predicate Holds(b: seq<byte>, funcs: nat, p: nat, max: nat, es: seq<Entry>) {
    && p > 0 && At(funcs, p, max) == |b| && |es| <= max < 0x1_0000
    && GoodNames(es) && InPlace(b, funcs, p, es) && End(es) < funcs
  }

  /** What adding a name writes. */
  function Written(b: seq<byte>, funcs: nat, p: nat, end: nat, n: nat, e: Entry): (r: seq<byte>)
    requires 2 <= end && end + |e.name| + 2 <= |b| && At(funcs, p, n) + p <= |b|
    ensures |r| == |b|
  {
    var b1 := Put(b, end, e.name + [0]);
    var b2 := Put(b1, end + |e.name| + 1, [0]);
    var b3 := Put(b2, At(funcs, p, n), Bytes(e.func, p));
    Put(b3, 0, Bytes((Value(b3[..2]) + 1) % 0x1_0000, 2))
  }

  // ---------------------------------------------------------------------------
  // The list of names
  // ---------------------------------------------------------------------------

  lemma {:induction false} PackedAppend(es: seq<Entry>, fs: seq<Entry>)
    ensures Packed(es + fs) == Packed(es) + Packed(fs)
  {
    if es == [] {
      assert es + fs == fs;
    } else {
      assert (es + fs)[1..] == es[1..] + fs;
      PackedAppend(es[1..], fs);
    }
  }

  lemma PackedSplits(es: seq<Entry>, i: nat)
    requires i < |es|
    ensures Packed(es) == Packed(es[..i]) + es[i].name + [0] + Packed(es[i + 1..])
    ensures End(es[..i + 1]) == End(es[..i]) + |es[i].name| + 1 <= End(es)
  {
    var rest := es[i + 1..];
    assert es == es[..i] + ([es[i]] + rest) && es[..i + 1] == es[..i] + [es[i]];
    PackedAppend(es[..i], [es[i]] + rest);
    PackedAppend([es[i]], rest);
    PackedAppend(es[..i], [es[i]]);
    PackedOne(es[i]);
  }

  /** A part of a slice. */
  lemma SlicePart(b: seq<byte>, from: nat, to: nat, left: seq<byte>, x: seq<byte>, right: seq<byte>)
    requires from <= to <= |b| && b[from..to] == left + x + right
    ensures b[from + |left|..from + |left| + |x|] == x
  {
    forall i | 0 <= i < |x| ensures b[from + |left| + i] == x[i] {
      assert b[from..to][|left| + i] == (left + x + right)[|left| + i];
    }
  }

  /** The `i`-th name as it lies in the buffer. */
  lemma NameInBuffer(b: seq<byte>, funcs: nat, p: nat, es: seq<Entry>, i: nat)
    requires InPlace(b, funcs, p, es) && i < |es|
    ensures var s := End(es[..i]);
            && s + |es[i].name| < |b| && End(es[..i + 1]) == s + |es[i].name| + 1 <= End(es)
            && b[s..s + |es[i].name|] == es[i].name && b[s + |es[i].name|] == 0
  {
    hide Packed, FuncInPlace;
    PackedSplits(es, i);
    var left, name, right := Packed(es[..i]), es[i].name, Packed(es[i + 1..]);
    assert left + name + [0] + right == left + name + ([0] + right);
    SlicePart(b, 2, End(es), left, name, [0] + right);
    assert left + name + [0] + right == (left + name) + [0] + right;
    SlicePart(b, 2, End(es), left + name, [0], right);
  }

  lemma PackedOne(e: Entry)
    ensures Packed([e]) == e.name + [0]
  {
    assert Packed([e][1..]) == [];
  }

  lemma {:induction false} FindIsFirstMatch(es: seq<Entry>, name: seq<byte>)
    ensures match Find(es, name)
            case None => forall i | 0 <= i < |es| :: es[i].name != name
            case Some(k) => k < |es| && es[k].name == name && forall i | 0 <= i < k :: es[i].name != name
  {
    if es != [] { FindIsFirstMatch(es[1..], name); }
  }

  lemma FindAt(es: seq<Entry>, name: seq<byte>, k: nat)
    requires k < |es| && es[k].name == name && forall i | 0 <= i < k :: es[i].name != name
    ensures Find(es, name) == Some(k)
  {
    FindIsFirstMatch(es, name);
  }

  lemma FindNowhere(es: seq<Entry>, name: seq<byte>)
    requires forall i | 0 <= i < |es| :: es[i].name != name
    ensures Find(es, name) == None
  {
    FindIsFirstMatch(es, name);
  }

  // ---------------------------------------------------------------------------
  // The registry
  // ---------------------------------------------------------------------------

  class Registry {
    const pointerSize: nat
    var buffer: array<byte>
    var funcs: nat
    var maxFunctions: nat

    constructor (pointerSize: nat, buffer: array<byte>)
      ensures this.pointerSize == pointerSize && this.buffer == buffer
    {
      this.pointerSize := pointerSize;
      this.buffer := buffer;
      funcs := 0;
      maxFunctions := 0;
    }

    /** The ordered list that the registry stands for. */
    ghost predicate Represents(es: seq<Entry>)
      reads this, buffer
    {
      Holds(buffer[..], funcs, pointerSize, maxFunctions, es)
    }

    /** `strcmp_cursor`: compares, and finds the end of the string at the cursor, which is `end`. */
    method StrcmpCursor(cursor: nat, name: seq<byte>, ghost end: nat) returns (value: int, cursor': nat)
      requires cursor <= end < buffer.Length && buffer[end] == 0 && IsCString(buffer[cursor..end]) && IsCString(name)
      ensures cursor' == end
      ensures value == 0 <==> buffer[cursor..end] == name
    {
      ghost var s := buffer[cursor..end];
      cursor' := cursor;
      value := 0;
      var i := 0;
      while value == 0
        invariant 0 <= i <= |name| && cursor' == cursor + i <= end
        invariant if value == 0 then s[..i] == name[..i] else s != name
        decreases end - cursor', if value == 0 then 1 else 0
      {
        var c: int := buffer[cursor'];
        var n: int := if i < |name| then name[i] else 0;
        value := c - n;
        assert cursor' < end ==> c == s[i] != 0;
        if n == 0 || c == 0 {
          assert value == 0 <==> s == name;
          break;
        }
        assert s[..i + 1] == s[..i] + [s[i]] && name[..i + 1] == name[..i] + [name[i]];
        assert value != 0 ==> s[i] != name[i];
        i := i + 1;
        cursor' := cursor' + 1;
      }
      while buffer[cursor'] != 0
        invariant cursor <= cursor' <= end
        decreases end - cursor'
      {
        cursor' := cursor' + 1;
      }
      assert forall k | cursor <= k < end :: buffer[k] == s[k - cursor] != 0;
    }

    method GetNumFuncs() returns (n: nat)
      requires buffer.Length >= 2
      ensures n == Value(buffer[..2])
    {
      var low: int, high: int := buffer[0], buffer[1];
      n := low + 256 * high;
      assert buffer[..2] == [buffer[0], buffer[1]] && buffer[..2][1..] == [buffer[1]];
      assert Value([buffer[1]]) == buffer[1] by { assert [buffer[1]][1..] == []; }
    }

    /** The loop of `Lookup` and of `Set`: where the name is, or where the list ends. */
    method Scan(name: seq<byte>, ghost es: seq<Entry>) returns (found: bool, idx: nat, ptr: nat)
      requires Represents(es) && IsCString(name)
      ensures if found then Find(es, name) == Some(idx) else Find(es, name) == None && idx == |es| && ptr == End(es)
    {
      hide Holds, Packed;
      found, idx, ptr := false, 0, 2;
      assert End([]) == 2 by { NothingPacked(); }
      assert es[..0] == [] && es[..|es|] == es;
      MoreNames(buffer[..], funcs, pointerSize, maxFunctions, es, 0);
      while buffer[ptr] != 0
        invariant 0 <= idx <= |es| && ptr == End(es[..idx]) <= End(es) < buffer.Length
        invariant buffer[ptr] != 0 <==> idx < |es|
        invariant forall i | 0 <= i < idx :: es[i].name != name
        decreases |es| - idx
      {
        NameAtCursor(buffer[..], funcs, pointerSize, maxFunctions, es, idx);
        ghost var end := ptr + |es[idx].name|;
        assert buffer[ptr..end] == buffer[..][ptr..end] == es[idx].name && buffer[end] == buffer[..][end];
        var value;
        value, ptr := StrcmpCursor(ptr, name, end);
        if value == 0 {
          FindAt(es, name, idx);
          return true, idx, ptr;
        }
        idx := idx + 1;
        ptr := ptr + 1;
        MoreNames(buffer[..], funcs, pointerSize, maxFunctions, es, idx);
      }
      FindNowhere(es, name);
    }

    /** The position of the first entry with the name. */
    method Lookup(name: seq<byte>, ghost es: seq<Entry>) returns (r: Result<nat, Error>)
      requires Represents(es) && IsCString(name)
      ensures r == match Find(es, name) case None => Err(NameNotFound) case Some(i) => Ok(i)
    {
      var found, idx, _ := Scan(name, es);
      return if found then Ok(idx) else Err(NameNotFound);
    }

    method GetByIndex(i: nat, ghost es: seq<Entry>) returns (r: Result<nat, Error>)
      requires Represents(es)
      ensures r == if i < |es| then Ok(es[i].func) else Err(IndexInvalid)
    {
      var n := GetNumFuncs();
      CountInPlace(buffer[..], funcs, pointerSize, es);
      assert buffer[..][..2] == buffer[..2];
      if i >= n { return Err(IndexInvalid); }
      PointerInTable(buffer[..], funcs, pointerSize, maxFunctions, es, i);
      var at := At(funcs, pointerSize, i);
      assert buffer[at..at + pointerSize] == buffer[..][at..at + pointerSize];
      BytesValue(es[i].func, pointerSize);
      return Ok(Value(buffer[at..at + pointerSize]));
    }

    method Create(buffer: array<byte>) returns (r: Result<(), Error>)
      requires pointerSize > 0
      modifies this, buffer
      ensures buffer.Length < AverageNameBytes + 1 + pointerSize
              ==> r == Err(BufferTooSmall) && buffer[..] == old(buffer[..])
      ensures buffer.Length >= AverageNameBytes + 1 + pointerSize ==>
                && r == Ok(()) && this.buffer == buffer && funcs == buffer.Length - maxFunctions * pointerSize
                && maxFunctions == buffer.Length / (AverageNameBytes + 1 + pointerSize) > 0
      ensures r.Ok? && maxFunctions < 0x1_0000 ==> Represents([])
    {
      var entrySize := AverageNameBytes + 1 + pointerSize;
      if buffer.Length < entrySize { return Err(BufferTooSmall); }
      this.buffer := buffer;
      buffer[0], buffer[1], buffer[2] := 0, 0, 0;
      maxFunctions := buffer.Length / entrySize;
      TableFits(buffer.Length, pointerSize, maxFunctions);
      funcs := buffer.Length - maxFunctions * pointerSize;
      assert buffer[..2] == [0, 0] == Bytes(0, 2) by { assert Bytes(0, 1) == [0] && Bytes(0, 2) == [0] + Bytes(0, 1); }
      assert buffer[..][..2] == buffer[..2] && buffer[..][2..2] == [];
      return Ok(());
    }

    /** Adds a name, or gives a name another function. What a new name makes of the buffer is `Written`. */
    method Set(name: seq<byte>, func: nat, override: bool, ghost es: seq<Entry>) returns (r: Result<(), Error>)
      requires Represents(es) && IsCString(name) && func < Power256(pointerSize)
      modifies buffer
      ensures match Find(es, name)
              case Some(i) =>
                && i < |es|
                && (!override ==> r == Err(AlreadyDefined) && buffer[..] == old(buffer[..]))
                && (override ==> r == Ok(()) && Represents(es[i := Entry(name, func)]))
              case None =>
                if |es| >= maxFunctions || End(es) + |name| + 1 > funcs
                then r == Err(RegistryFull) && buffer[..] == old(buffer[..])
                else
                  && r == Ok(()) && End(es) + |name| + 2 <= buffer.Length
                  && At(funcs, pointerSize, |es|) + pointerSize <= buffer.Length
                  && buffer[..] == Written(old(buffer[..]), funcs, pointerSize, End(es), |es|, Entry(name, func))
      ensures r.Ok? && (Find(es, name).Some? || (name != [] && End(es) + |name| + 2 <= funcs))
              ==> Represents(SetIn(es, name, func))
    {
      hide Holds, Power256, Bytes, Packed, Written;
      NamesInside(buffer[..], funcs, pointerSize, maxFunctions, es);
      var found, idx, ptr := Scan(name, es);
      if found {
        FindIsFirstMatch(es, name);
        if !override { return Err(AlreadyDefined); }
        PointerInTable(buffer[..], funcs, pointerSize, maxFunctions, es, idx);
        Copy(At(funcs, pointerSize, idx), Bytes(func, pointerSize));
        OverrideKeeps(old(buffer[..]), funcs, pointerSize, maxFunctions, es, idx, Entry(name, func));
        return Ok(());
      }
      if ptr > funcs { return Err(RegistryFull); }
      if idx >= maxFunctions || |name| + 1 > funcs - ptr { return Err(RegistryFull); }
      AcceptedName(buffer[..], funcs, pointerSize, maxFunctions, es, name, func);
      AddEntry(ptr, idx, Entry(name, func));
      return Ok(());
    }

    /** The writes for a new name. */
    method AddEntry(end: nat, n: nat, e: Entry)
      requires 2 <= end && end + |e.name| + 2 <= buffer.Length
               && At(funcs, pointerSize, n) + pointerSize <= buffer.Length
      modifies buffer
      ensures buffer[..] == Written(old(buffer[..]), funcs, pointerSize, end, n, e)
    {
      hide Put, Bytes;
      Copy(end, e.name + [0]);
      Copy(end + |e.name| + 1, [0]);
      Copy(At(funcs, pointerSize, n), Bytes(e.func, pointerSize));
      var count := GetNumFuncs();
      assert buffer[..][..2] == buffer[..2];
      Copy(0, Bytes((count + 1) % 0x1_0000, 2));
    }

    /** `memcpy` into the buffer. */
    method Copy(at: nat, bytes: seq<byte>)
      requires at + |bytes| <= buffer.Length
      modifies buffer
      ensures buffer[..] == Put(old(buffer[..]), at, bytes)
    {
      for i := 0 to |bytes|
        invariant forall k | 0 <= k < buffer.Length ::
                    buffer[k] == if at <= k < at + i then bytes[k - at] else old(buffer[k])
      {
        buffer[at + i] := bytes[i];
      }
      assert buffer[..] == Put(old(buffer[..]), at, bytes);
    }
  }

  /** There is another name at the cursor unless the list has ended. */
  lemma MoreNames(b: seq<byte>, funcs: nat, p: nat, max: nat, es: seq<Entry>, i: nat)
    requires Holds(b, funcs, p, max, es) && i <= |es|
    ensures End(es[..i]) <= End(es) < |b| && (b[End(es[..i])] != 0 <==> i < |es|)
  {
    if i < |es| {
      NameInBuffer(b, funcs, p, es, i);
      var s := End(es[..i]);
      assert b[s..s + |es[i].name|][0] == es[i].name[0];
    } else {
      assert es[..i] == es;
    }
  }

  lemma NothingPacked()
    ensures End([]) == 2
  {
  }

  lemma NameAtCursor(b: seq<byte>, funcs: nat, p: nat, max: nat, es: seq<Entry>, i: nat)
    requires Holds(b, funcs, p, max, es) && i < |es|
    ensures var s := End(es[..i]);
            && s + |es[i].name| < |b| && End(es[..i + 1]) == s + |es[i].name| + 1 <= End(es)
            && b[s..s + |es[i].name|] == es[i].name && b[s + |es[i].name|] == 0 && IsCString(es[i].name)
  {
    NameInBuffer(b, funcs, p, es, i);
  }

  lemma CountInPlace(b: seq<byte>, funcs: nat, p: nat, es: seq<Entry>)
    requires InPlace(b, funcs, p, es)
    ensures Value(b[..2]) == |es|
  {
    assert Power256(1) == 256 && Power256(2) == 0x1_0000;
    BytesValue(|es|, 2);
  }

  lemma SlotFits(funcs: nat, p: nat, max: nat, i: nat)
    requires i < max
    ensures At(funcs, p, i) + p <= At(funcs, p, max)
  {
    assert (max - i) * p >= p by { assert (max - i - 1) * p >= 0; assert (max - i) * p == (max - i - 1) * p + p; }
    assert max * p == i * p + (max - i) * p;
  }

  lemma PointerInTable(b: seq<byte>, funcs: nat, p: nat, max: nat, es: seq<Entry>, i: nat)
    requires Holds(b, funcs, p, max, es) && i < |es|
    ensures At(funcs, p, i) + p <= |b| && es[i].func < Power256(p)
            && b[At(funcs, p, i)..At(funcs, p, i) + p] == Bytes(es[i].func, p)
  {
    assert FuncInPlace(b, funcs, p, i, es[i].func);
  }

  lemma TableFits(size: nat, p: nat, max: nat)
    requires p > 0 && size >= AverageNameBytes + 1 + p && max == size / (AverageNameBytes + 1 + p)
    ensures max > 0 && max * p + 11 <= size
  {
    assert max * (11 + p) <= size;
    assert max * (11 + p) == max * 11 + max * p;
  }

  // ---------------------------------------------------------------------------
  // What setting does to the list
  // ---------------------------------------------------------------------------

  /** Different entries have their pointers in different places. */
  lemma PointersApart(funcs: nat, p: nat, i: nat, j: nat)
    requires i < j
    ensures At(funcs, p, i) + p <= At(funcs, p, j)
  {
    SlotFits(funcs, p, j, i);
  }

  lemma OverrideKeeps(b: seq<byte>, funcs: nat, p: nat, max: nat, es: seq<Entry>, k: nat, e: Entry)
    requires Holds(b, funcs, p, max, es) && k < |es| && e.name == es[k].name && e.func < Power256(p)
    requires At(funcs, p, k) + p <= |b|
    ensures Holds(Put(b, At(funcs, p, k), Bytes(e.func, p)), funcs, p, max, es[k := e])
  {
    hide Packed, Bytes, Power256;
    var b', es' := Put(b, At(funcs, p, k), Bytes(e.func, p)), es[k := e];
    SamePacked(es, k, e);
    PutAbove(b, At(funcs, p, k), Bytes(e.func, p), End(es));
    forall i | 0 <= i < |es'| ensures FuncInPlace(b', funcs, p, i, es'[i].func) {
      assert FuncInPlace(b, funcs, p, i, es[i].func);
      if i < k { PointersApart(funcs, p, i, k); } else if k < i { PointersApart(funcs, p, k, i); }
      PutApart(b, At(funcs, p, k), Bytes(e.func, p), At(funcs, p, i), p);
    }
  }

  /** Writing above a position leaves what is below it. */
  lemma PutAbove(b: seq<byte>, at: nat, bytes: seq<byte>, end: nat)
    requires at + |bytes| <= |b| && 2 <= end < at
    ensures var b' := Put(b, at, bytes); b'[..2] == b[..2] && b'[2..end] == b[2..end] && b'[end] == b[end]
  {
  }

  lemma {:induction false} SamePacked(es: seq<Entry>, k: nat, e: Entry)
    requires k < |es| && e.name == es[k].name
    ensures Packed(es[k := e]) == Packed(es)
  {
    if k == 0 {
      assert es[k := e][1..] == es[1..];
    } else {
      assert es[k := e][1..] == es[1..][k - 1 := e];
      SamePacked(es[1..], k - 1, e);
    }
  }

  lemma PackedAdded(es: seq<Entry>, e: Entry)
    ensures Packed(es + [e]) == Packed(es) + e.name + [0] && End(es + [e]) == End(es) + |e.name| + 1
  {
    PackedAppend(es, [e]);
    PackedOne(e);
  }

  lemma PutFirstTwo(b: seq<byte>, at: nat, bytes: seq<byte>)
    requires at + |bytes| <= |b| && |b| >= 2
    ensures at >= 2 ==> Put(b, at, bytes)[..2] == b[..2]
    ensures at == 0 && |bytes| == 2 ==> Put(b, at, bytes)[..2] == bytes
  {
  }

  /** The buffer after a new name, place by place. */
  lemma WrittenAt(b: seq<byte>, funcs: nat, p: nat, end: nat, n: nat, e: Entry, i: nat)
    requires 2 <= end && end + |e.name| + 2 <= |b| && At(funcs, p, n) + p <= |b| && 2 <= i < |b|
    ensures Written(b, funcs, p, end, n, e)[i]
         == if At(funcs, p, n) <= i < At(funcs, p, n) + p then Bytes(e.func, p)[i - At(funcs, p, n)]
            else if end <= i < end + |e.name| then e.name[i - end]
            else if end + |e.name| <= i < end + |e.name| + 2 then 0
            else b[i]
  {
    hide Put, Bytes, Value, At;
    var b1 := Put(b, end, e.name + [0]);
    var b2 := Put(b1, end + |e.name| + 1, [0]);
    var b3 := Put(b2, At(funcs, p, n), Bytes(e.func, p));
    PutAt(b, end, e.name + [0], i);
    PutAt(b1, end + |e.name| + 1, [0], i);
    PutAt(b2, At(funcs, p, n), Bytes(e.func, p), i);
    PutAt(b3, 0, Bytes((Value(b3[..2]) + 1) % 0x1_0000, 2), i);
  }

  lemma WrittenCount(b: seq<byte>, funcs: nat, p: nat, end: nat, n: nat, e: Entry)
    requires 2 <= end && end + |e.name| + 2 <= |b| && At(funcs, p, n) + p <= |b| && 2 <= At(funcs, p, n)
    ensures Written(b, funcs, p, end, n, e)[..2] == Bytes((Value(b[..2]) + 1) % 0x1_0000, 2)
  {
    hide Put, Bytes, Value, At;
    var b1 := Put(b, end, e.name + [0]);
    var b2 := Put(b1, end + |e.name| + 1, [0]);
    var b3 := Put(b2, At(funcs, p, n), Bytes(e.func, p));
    PutFirstTwo(b, end, e.name + [0]);
    PutFirstTwo(b1, end + |e.name| + 1, [0]);
    PutFirstTwo(b2, At(funcs, p, n), Bytes(e.func, p));
    PutFirstTwo(b3, 0, Bytes((Value(b3[..2]) + 1) % 0x1_0000, 2));
  }

  /** The parts of the buffer that a new name is about, and the part before it. */
  lemma WrittenParts(b: seq<byte>, funcs: nat, p: nat, end: nat, n: nat, e: Entry)
    requires 2 <= end && end + |e.name| + 2 <= |b| && At(funcs, p, n) + p <= |b| && end + |e.name| + 1 <= funcs
    ensures var b' := Written(b, funcs, p, end, n, e);
            && b'[2..end] == b[2..end] && b'[end..end + |e.name|] == e.name && b'[end + |e.name|] == 0
            && b'[At(funcs, p, n)..At(funcs, p, n) + p] == Bytes(e.func, p)
  {
    hide Written, Bytes;
    var b' := Written(b, funcs, p, end, n, e);
    assert At(funcs, p, n) >= funcs by { assert n * p >= 0; }
    hide At;
    forall i: nat | 2 <= i < |b|
      ensures i < end ==> b'[i] == b[i]
      ensures end <= i < end + |e.name| ==> b'[i] == e.name[i - end]
      ensures i == end + |e.name| ==> b'[i] == 0
      ensures At(funcs, p, n) <= i < At(funcs, p, n) + p ==> b'[i] == Bytes(e.func, p)[i - At(funcs, p, n)]
    {
      WrittenAt(b, funcs, p, end, n, e, i);
    }
  }

  /** The pointers of the other entries, unless the terminator falls on the first of them. */
  lemma OtherPointer(b: seq<byte>, funcs: nat, p: nat, end: nat, n: nat, e: Entry, i: nat)
    requires 2 <= end && end + |e.name| + 2 <= |b| && At(funcs, p, n) + p <= |b| && i < n && p > 0
    requires end + |e.name| + 1 < funcs || (end + |e.name| + 1 == funcs && i > 0)
    ensures var at := At(funcs, p, i);
            at + p <= |b| && Written(b, funcs, p, end, n, e)[at..at + p] == b[at..at + p]
  {
    hide Written, Bytes;
    PointersApart(funcs, p, i, n);
    if i > 0 { PointersApart(funcs, p, 0, i); }
    var at, b' := At(funcs, p, i), Written(b, funcs, p, end, n, e);
    assert at >= funcs by { assert i * p >= 0; }
    hide At;
    forall k | at <= k < at + p ensures b'[k] == b[k] { WrittenAt(b, funcs, p, end, n, e, k); }
  }

  lemma Joined(b: seq<byte>, from: nat, mid: nat, x: seq<byte>, name: seq<byte>)
    requires from <= mid && mid + |name| < |b| && b[from..mid] == x && b[mid..mid + |name|] == name
             && b[mid + |name|] == 0
    ensures b[from..mid + |name| + 1] == x + name + [0]
  {
    assert b[from..mid + |name| + 1] == b[from..mid] + b[mid..mid + |name|] + [b[mid + |name|]];
  }

  lemma GoodNamesAdded(es: seq<Entry>, e: Entry)
    requires GoodNames(es) && Find(es, e.name) == None && e.name != [] && IsCString(e.name)
    ensures GoodNames(es + [e])
  {
    FindIsFirstMatch(es, e.name);
  }

  lemma RoomForWrites(b: seq<byte>, funcs: nat, p: nat, max: nat, es: seq<Entry>, e: Entry)
    requires Holds(b, funcs, p, max, es) && |es| < max && End(es) + |e.name| + 1 <= funcs
    ensures At(funcs, p, |es|) + p <= |b| && At(funcs, p, |es|) >= funcs && End(es) + |e.name| + 2 <= |b|
  {
    SlotFits(funcs, p, max, |es|);
    SlotFits(funcs, p, max, 0);
    assert |es| * p >= 0;
  }

  /** The count and the names are in place whether or not there is room for the terminator of the list. */
  lemma NamesWritten(b: seq<byte>, funcs: nat, p: nat, max: nat, es: seq<Entry>, e: Entry)
    requires Holds(b, funcs, p, max, es) && |es| < max && End(es) + |e.name| + 1 <= funcs
    requires At(funcs, p, |es|) + p <= |b| && End(es) + |e.name| + 2 <= |b|
    ensures End(es + [e]) == End(es) + |e.name| + 1
    ensures var b' := Written(b, funcs, p, End(es), |es|, e);
            b'[..2] == Bytes(|es| + 1, 2) && b'[2..End(es) + |e.name| + 1] == Packed(es + [e])
  {
    hide Written, Packed, Bytes, Value, Holds, At;
    PackedAdded(es, e);
    InPlaceNames(b, funcs, p, max, es);
    CountWritten(b, funcs, p, max, es, e);
    WrittenParts(b, funcs, p, End(es), |es|, e);
    Joined(Written(b, funcs, p, End(es), |es|, e), 2, End(es), Packed(es), e.name);
  }

  lemma CountWritten(b: seq<byte>, funcs: nat, p: nat, max: nat, es: seq<Entry>, e: Entry)
    requires Holds(b, funcs, p, max, es) && |es| < max && End(es) + |e.name| + 1 <= funcs
    requires At(funcs, p, |es|) + p <= |b| && End(es) + |e.name| + 2 <= |b|
    ensures Written(b, funcs, p, End(es), |es|, e)[..2] == Bytes(|es| + 1, 2)
  {
    hide Written, Packed, Bytes, Value, Holds, At;
    RoomForWrites(b, funcs, p, max, es, e);
    InPlaceNames(b, funcs, p, max, es);
    WrittenCount(b, funcs, p, End(es), |es|, e);
  }

  lemma InPlaceNames(b: seq<byte>, funcs: nat, p: nat, max: nat, es: seq<Entry>)
    requires Holds(b, funcs, p, max, es)
    ensures End(es) < |b| && b[2..End(es)] == Packed(es) && Value(b[..2]) == |es| && |es| <= max < 0x1_0000 && p > 0
  {
    CountInPlace(b, funcs, p, es);
  }

  /** So are the pointers, save perhaps the first. */
  lemma PointersWritten(b: seq<byte>, funcs: nat, p: nat, max: nat, es: seq<Entry>, e: Entry, i: nat)
    requires Holds(b, funcs, p, max, es) && |es| < max && e.func < Power256(p) && End(es) + |e.name| + 1 <= funcs
    requires At(funcs, p, |es|) + p <= |b| && End(es) + |e.name| + 2 <= |b|
    requires i <= |es| && (i > 0 || |es| == 0 || End(es) + |e.name| + 1 < funcs)
    ensures FuncInPlace(Written(b, funcs, p, End(es), |es|, e), funcs, p, i, (es + [e])[i].func)
  {
    hide Written, Packed, Bytes, Power256, GoodNames;
    if i < |es| {
      assert FuncInPlace(b, funcs, p, i, es[i].func);
      OtherPointer(b, funcs, p, End(es), |es|, e, i);
    } else {
      WrittenParts(b, funcs, p, End(es), |es|, e);
    }
  }

  /**
   Adding a name that is new and not empty extends the list, exactly when there is room for
   the name, its NUL and the terminator of the list before the pointers. The check in the
   program asks for room for the name and its NUL only.
   */
  lemma AddingKeepsIffRoom(b: seq<byte>, funcs: nat, p: nat, max: nat, es: seq<Entry>, e: Entry)
    requires Holds(b, funcs, p, max, es) && |es| < max && e.func < Power256(p) && End(es) + |e.name| + 1 <= funcs
    requires e.name != [] && IsCString(e.name) && Find(es, e.name) == None
    ensures End(es) + |e.name| + 2 <= |b| && At(funcs, p, |es|) + p <= |b|
    ensures Holds(Written(b, funcs, p, End(es), |es|, e), funcs, p, max, es + [e]) <==> End(es) + |e.name| + 2 <= funcs
  {
    hide Written, Packed, Bytes, Power256, FuncInPlace, GoodNames;
    RoomForWrites(b, funcs, p, max, es, e);
    NamesWritten(b, funcs, p, max, es, e);
    GoodNamesAdded(es, e);
    if End(es) + |e.name| + 2 <= funcs {
      WrittenAt(b, funcs, p, End(es), |es|, e, End(es) + |e.name| + 1);
      forall i | 0 <= i < |es + [e]|
        ensures FuncInPlace(Written(b, funcs, p, End(es), |es|, e), funcs, p, i, (es + [e])[i].func)
      {
        PointersWritten(b, funcs, p, max, es, e, i);
      }
    }
  }

  /**
   When the name and its NUL just fit, the terminator of the list and the first pointer share
   a byte: both are in place only if the lowest byte of that pointer is zero.
   */
  lemma TerminatorSharesAByte(b: seq<byte>, funcs: nat, p: nat, max: nat, es: seq<Entry>, e: Entry)
    requires Holds(b, funcs, p, max, es) && |es| < max && e.func < Power256(p) && End(es) + |e.name| + 1 == funcs
    ensures End(es) + |e.name| + 2 <= |b| && At(funcs, p, |es|) + p <= |b|
    ensures InPlace(Written(b, funcs, p, End(es), |es|, e), funcs, p, es + [e]) <==> (es + [e])[0].func % 256 == 0
  {
    hide Written, Packed, Power256, Bytes, GoodNames;
    RoomForWrites(b, funcs, p, max, es, e);
    NamesWritten(b, funcs, p, max, es, e);
    var n, es', b' := |es|, es + [e], Written(b, funcs, p, End(es), |es|, e);
    forall i | 0 < i <= n ensures FuncInPlace(b', funcs, p, i, es'[i].func) {
      PointersWritten(b, funcs, p, max, es, e, i);
    }
    if n > 0 {
      assert FuncInPlace(b, funcs, p, 0, es[0].func);
      FirstByteCleared(b, b', funcs, p, End(es), n, es, e);
      hide FuncInPlace;
      assert es'[0] == es[0];
    } else {
      PointersWritten(b, funcs, p, max, es, e, 0);
      FirstByte(b', funcs, p, e.func);
    }
  }

  lemma FirstByte(b: seq<byte>, funcs: nat, p: nat, func: nat)
    requires p > 0 && FuncInPlace(b, funcs, p, 0, func)
    ensures b[funcs] == func % 256
  {
    assert b[funcs] == b[funcs..funcs + p][0];
  }

  /** With other entries before it, a name that just fits clears the lowest byte of the first pointer. */
  lemma FirstByteCleared(b: seq<byte>, b': seq<byte>, funcs: nat, p: nat, end: nat, n: nat, es: seq<Entry>, e: Entry)
    requires 2 <= end && end + |e.name| + 2 <= |b| && At(funcs, p, n) + p <= |b| && n > 0 && p > 0 && es != []
    requires end + |e.name| + 1 == funcs && b' == Written(b, funcs, p, end, n, e)
             && FuncInPlace(b, funcs, p, 0, es[0].func)
    ensures b'[funcs] == 0 && (FuncInPlace(b', funcs, p, 0, es[0].func) <==> es[0].func % 256 == 0)
  {
    hide Written, Power256;
    PointersApart(funcs, p, 0, n);
    WrittenAt(b, funcs, p, end, n, e, funcs);
    FirstByte(b, funcs, p, es[0].func);
    if FuncInPlace(b', funcs, p, 0, es[0].func) { FirstByte(b', funcs, p, es[0].func); }
    forall k | funcs < k < funcs + p ensures b'[k] == b[k] { WrittenAt(b, funcs, p, end, n, e, k); }
    if b[funcs] == 0 { assert b'[funcs..funcs + p] == b[funcs..funcs + p]; }
  }

  /** A name that the program accepts. */
  lemma AcceptedName(b: seq<byte>, funcs: nat, p: nat, max: nat, es: seq<Entry>, name: seq<byte>, func: nat)
    requires Holds(b, funcs, p, max, es) && |es| < max && func < Power256(p) && End(es) + |name| + 1 <= funcs
    requires IsCString(name) && Find(es, name) == None
    ensures End(es) + |name| + 2 <= |b| && At(funcs, p, |es|) + p <= |b|
    ensures name != [] && End(es) + |name| + 2 <= funcs
            ==> Holds(Written(b, funcs, p, End(es), |es|, Entry(name, func)), funcs, p, max, SetIn(es, name, func))
  {
    hide Holds, Written;
    RoomForWrites(b, funcs, p, max, es, Entry(name, func));
    if name != [] { AddingKeepsIffRoom(b, funcs, p, max, es, Entry(name, func)); }
  }

  lemma NamesInside(b: seq<byte>, funcs: nat, p: nat, max: nat, es: seq<Entry>)
    requires Holds(b, funcs, p, max, es)
    ensures End(es) < funcs
  {
  }

  /** An empty name is counted but is not in the list: it is never found, and count and names are out of step. */
  lemma EmptyNameIsLost(b: seq<byte>, funcs: nat, p: nat, max: nat, es: seq<Entry>, func: nat)
    requires Holds(b, funcs, p, max, es) && |es| < max && func < Power256(p)
    ensures End(es) + 2 <= |b| && At(funcs, p, |es|) + p <= |b| && Find(es, []) == None
    ensures var b' := Written(b, funcs, p, End(es), |es|, Entry([], func));
            b'[2..End(es)] == Packed(es) && b'[End(es)] == 0 && b'[..2] == Bytes(|es| + 1, 2)
  {
    hide Written, Packed, Bytes, Power256;
    var e := Entry([], func);
    RoomForWrites(b, funcs, p, max, es, e);
    NamesWritten(b, funcs, p, max, es, e);
    WrittenParts(b, funcs, p, End(es), |es|, e);
    FindNowhere(es, []);
  }

  const TightName: seq<byte> := [97, 97, 97, 97, 97, 97, 97, 97]

  /**
   A registry as `Create` makes it reaches the case without room for the terminator: in a buffer of
   19 bytes a name of 8 is accepted, and afterwards the registry does not stand for the list with it,
   since the pointer it has set is not in place.
   */
  method TightNameIsAccepted() returns (reg: Registry, r: Result<(), Error>)
    ensures fresh(reg) && r == Ok(()) && reg.maxFunctions == 1
    ensures var es := [Entry(TightName, 5)];
            !reg.Represents(es) && !InPlace(reg.buffer[..], reg.funcs, 8, es)
  {
    hide Holds, InPlace, Written, Packed, Bytes;
    NothingPacked();
    var buffer := new byte[19];
    reg := new Registry(8, buffer);
    r := reg.Create(buffer);
    ghost var b, e := buffer[..], Entry(TightName, 5);
    assert 5 < Power256(8);
    r := reg.Set(TightName, 5, false, []);
    assert [] + [e] == [e];
    AddingKeepsIffRoom(b, reg.funcs, 8, 1, [], e);
    TerminatorSharesAByte(b, reg.funcs, 8, 1, [], e);
  }

  // ---------------------------------------------------------------------------
  // The list as a map
  // ---------------------------------------------------------------------------

  /** The list after `Set` has been accepted. */
  function SetIn(es: seq<Entry>, name: seq<byte>, func: nat): seq<Entry> {
    match Find(es, name)
    case None => es + [Entry(name, func)]
    case Some(i) => if i < |es| then es[i := Entry(name, func)] else es
  }

  /** The function under a name. */
  function FuncOf(es: seq<Entry>, name: seq<byte>): Option<nat> {
    match Find(es, name)
    case None => None
    case Some(i) => if i < |es| then Some(es[i].func) else None
  }

  /** Setting changes the function of that name only, and no position that a name already has. */
  lemma {:induction false} SetIsMapUpdate(es: seq<Entry>, name: seq<byte>, func: nat, other: seq<byte>)
    requires GoodNames(es)
    ensures FuncOf(SetIn(es, name, func), other) == if other == name then Some(func) else FuncOf(es, other)
    ensures Find(es, other).Some? ==> Find(SetIn(es, name, func), other) == Find(es, other)
  {
    var es' := SetIn(es, name, func);
    FindIsFirstMatch(es, name);
    FindIsFirstMatch(es, other);
    match Find(es, other)
    case Some(k) => FindAt(es', other, k);
    case None =>
      if other == name { FindAt(es', other, |es|); } else { FindNowhere(es', other); }
  }
}
