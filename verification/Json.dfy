module Json {
  /** The stateful writer and reader, with the handlers for strings, integers, arrays, pairs and maps. */

  import opened Wrappers
  import opened JsonText
  import opened JsonRoundTrip

  class JSONWriter {
    var os: string
    var scopeCounter: seq<nat>
    var scopeMultiLine: seq<bool>

    constructor ()
      ensures os == "" && scopeCounter == [] && scopeMultiLine == [] && Valid()
    {
      os, scopeCounter, scopeMultiLine := "", [], [];
    }

    ghost predicate Valid()
      reads this
    {
      |scopeCounter| == |scopeMultiLine|
    }

    /** A value has been written as `text`, and the scopes are as they were. */
    twostate predicate Wrote(text: string)
      reads this
    {
      Valid() && os == old(os) + text && scopeCounter == old(scopeCounter) && scopeMultiLine == old(scopeMultiLine)
    }

    /** An item of the innermost scope, which now counts one more, has been written as `text`. */
    twostate predicate WroteItem(text: string)
      reads this
      requires old(scopeCounter) != []
    {
      var n := |old(scopeCounter)| - 1;
      && Valid() && os == old(os) + text && scopeMultiLine == old(scopeMultiLine)
      && Inside(old(scopeCounter)[..n], old(scopeCounter)[n] + 1)
    }

    /** The innermost scope counts `count`; `outer` are the counts of those around it. */
    predicate Inside(outer: seq<nat>, count: nat)
      reads this
    {
      |scopeCounter| == |outer| + 1 && scopeCounter[..|outer|] == outer && scopeCounter[|outer|] == count
    }

    method Extend(item: string)
      requires Valid()
      modifies this`os
      ensures os == old(os) + item
    {
      os := os + item;
    }

    method WriteSeparator()
      requires Valid()
      modifies this`os
      ensures os == old(os) + Separator(scopeMultiLine)
    {
      if |scopeMultiLine| == 0 || scopeMultiLine[|scopeMultiLine| - 1] {
        Extend("\n");
        Extend(Spaces(2 * |scopeMultiLine|));
      }
    }

    method WriteEscaped(ch: char)
      requires Valid()
      modifies this`os
      ensures os == old(os) + EscapeChar(ch)
    {
      if ch == '\r' { Extend("\\r"); }
      else if ch == '\n' { Extend("\\n"); }
      else if ch == '\\' { Extend("\\\\"); }
      else if ch == '\t' { Extend("\\t"); }
      else if ch == '\"' { Extend("\\\""); }
      else { Extend([ch]); }
    }

    method WriteString(s: string)
      requires Valid()
      modifies this`os
      ensures os == old(os) + Quoted(s)
    {
      hide EscapeChar;
      Extend("\"");
      var i := 0;
      while i < |s|
        invariant 0 <= i <= |s|
        invariant os + Escape(s[i..]) == old(os) + "\"" + Escape(s)
      {
        var ch := s[i];
        assert s[i..][0] == ch && s[i..][1..] == s[i + 1..];
        WriteEscaped(ch);
        i := i + 1;
      }
      assert s[i..] == "";
      assert os == old(os) + "\"" + Escape(s);
      Extend("\"");
      assert os == old(os) + Quoted(s);
    }

    method WriteNumber(i: int)
      requires Valid()
      modifies this`os
      ensures os == old(os) + Number(i)
    {
      Extend(Number(i));
    }

    method Begin(open: char, multiLine: bool)
      requires Valid()
      modifies this
      ensures Valid() && os == old(os) + [open]
      ensures scopeMultiLine == old(scopeMultiLine) + [multiLine] && Inside(old(scopeCounter), 0)
    {
      Extend([open]);
      scopeMultiLine := scopeMultiLine + [multiLine];
      scopeCounter := scopeCounter + [0];
    }

    /** Fails when no scope is open. */
    method End(close: char) returns (ok: bool)
      requires Valid()
      modifies this
      ensures Valid() && ok == (old(scopeCounter) != [])
      ensures !ok ==> os == old(os) && scopeCounter == [] && scopeMultiLine == []
      ensures ok ==> var n := |old(scopeCounter)| - 1;
                     && scopeCounter == old(scopeCounter)[..n] && scopeMultiLine == old(scopeMultiLine)[..n]
                     && os == old(os) + Ending(scopeMultiLine, old(scopeMultiLine)[n], old(scopeCounter)[n]) + [close]
    {
      if |scopeMultiLine| == 0 { return false; }
      if |scopeCounter| == 0 { assert false; }
      var n := |scopeCounter| - 1;
      var newline, nelem := scopeMultiLine[n], scopeCounter[n];
      scopeMultiLine := scopeMultiLine[..n];
      scopeCounter := scopeCounter[..n];
      if newline && nelem != 0 { WriteSeparator(); }
      Extend([close]);
      return true;
    }

    method WriteArraySeparator()
      requires Valid() && scopeCounter != []
      modifies this
      ensures WroteItem(Comma(old(scopeCounter)[|old(scopeCounter)| - 1]) + Separator(scopeMultiLine))
    {
      hide Separator;
      var n := |scopeCounter| - 1;
      if scopeCounter[n] != 0 { Extend(", "); }
      assert os == old(os) + Comma(old(scopeCounter)[n]);
      scopeCounter := scopeCounter[..n] + [scopeCounter[n] + 1];
      WriteSeparator();
    }

    method WriteArrayItem(t: Schema, v: Value)
      requires Valid() && scopeCounter != [] && HasType(t, v)
      modifies this
      ensures WroteItem(Comma(old(scopeCounter)[|old(scopeCounter)| - 1]) + Separator(scopeMultiLine)
                        + Render(t, v, scopeMultiLine))
      decreases v, 2
    {
      hide Render, Separator;
      WriteArraySeparator();
      Write(t, v);
    }

    method WriteObjectKeyValue(key: string, t: Schema, v: Value)
      requires Valid() && scopeCounter != [] && HasType(t, v)
      modifies this
      ensures WroteItem(Comma(old(scopeCounter)[|old(scopeCounter)| - 1]) + Separator(scopeMultiLine)
                        + "\"" + key + "\": " + Render(t, v, scopeMultiLine))
      decreases v, 2
    {
      hide Render, Separator;
      var n := |scopeCounter| - 1;
      if scopeCounter[n] > 0 { Extend(", "); }
      WriteSeparator();
      Extend("\"");
      Extend(key);
      Extend("\": ");
      scopeCounter := scopeCounter[..n] + [scopeCounter[n] + 1];
      Write(t, v);
    }

    method WriteVec(t: Schema, vs: seq<Value>)
      requires Valid() && AllHaveType(t, vs)
      modifies this
      ensures Wrote(Render(Vec(t), VecV(vs), scopeMultiLine))
      decreases VecV(vs), 0
    {
      hide Render, RenderItems, Separator, HasType, AllHaveType, Comma, Ending;
      var m := VecMultiLine(t, |vs|);
      ghost var inner, done := scopeMultiLine + [m], "";
      Begin('[', m);
      var i := 0;
      assert vs[i..] == vs;
      while i < |vs|
        invariant 0 <= i <= |vs| && Valid() && AllHaveType(t, vs[i..])
        invariant Inside(old(scopeCounter), i) && scopeMultiLine == inner
        invariant os == old(os) + ("[" + done)
        invariant done + RenderItems(t, vs[i..], inner, i) == RenderItems(t, vs, inner, 0)
      {
        ItemsAdvance(t, vs, inner, i, done);
        WriteArrayItem(t, vs[i]);
        ghost var item := Comma(i) + Separator(inner) + Render(t, vs[i], inner);
        Chain(old(os), "[", done, item);
        done := done + item;
        i := i + 1;
      }
      ItemsDone(t, vs, old(scopeMultiLine), done);
      var ok := End(']');
      Close(old(os), "[" + done, Ending(old(scopeMultiLine), m, |vs|), "]");
    }

    method WritePair(first: Schema, second: Schema, a: Value, b: Value)
      requires Valid() && HasType(first, a) && HasType(second, b)
      modifies this
      ensures Wrote(Render(Pair(first, second), PairV(a, b), scopeMultiLine))
      decreases PairV(a, b), 0
    {
      hide Render, Separator, HasType, Comma, Ending, PairText;
      ghost var inner := scopeMultiLine + [true];
      Begin('[', true);
      WriteArrayItem(first, a);
      WriteArrayItem(second, b);
      assert scopeMultiLine == inner;
      var ok := End(']');
      PairRendered(first, second, a, b, old(scopeMultiLine));
      PairJoined(old(os), first, second, a, b, old(scopeMultiLine));
    }

    method WriteMap(t: Schema, es: seq<Entry>)
      requires Valid() && EntriesHaveType(t, es)
      modifies this
      ensures Wrote(Render(Map(t), MapV(es), scopeMultiLine))
      decreases MapV(es), 0
    {
      hide Render, RenderEntries, Separator, HasType, EntriesHaveType, Comma, Ending;
      var m := |es| > 1;
      ghost var inner, done := scopeMultiLine + [m], "";
      Begin('{', m);
      var i := 0;
      assert es[i..] == es;
      while i < |es|
        invariant 0 <= i <= |es| && Valid() && EntriesHaveType(t, es[i..])
        invariant Inside(old(scopeCounter), i) && scopeMultiLine == inner
        invariant os == old(os) + ("{" + done)
        invariant done + RenderEntries(t, es[i..], inner, i) == RenderEntries(t, es, inner, 0)
      {
        EntriesAdvance(t, es, inner, i, done);
        WriteObjectKeyValue(es[i].key, t, es[i].value);
        ghost var item := Comma(i) + Separator(inner) + "\"" + es[i].key + "\": " + Render(t, es[i].value, inner);
        Chain(old(os), "{", done, item);
        done := done + item;
        i := i + 1;
      }
      EntriesDone(t, es, old(scopeMultiLine), done);
      var ok := End('}');
      Close(old(os), "{" + done, Ending(old(scopeMultiLine), m, |es|), "}");
    }

    /** The handlers, chosen by type. */
    method Write(t: Schema, v: Value)
      requires Valid() && HasType(t, v)
      modifies this
      ensures Wrote(Render(t, v, scopeMultiLine))
      decreases v, 1
    {
      match v
      case IntV(i) => WriteNumber(i);
      case StrV(s) => WriteString(s);
      case VecV(items) => WriteVec(t.elem, items);
      case PairV(a, b) => WritePair(t.first, t.second, a, b);
      case MapV(entries) => WriteMap(t.elem, entries);
    }
  }

  class JSONReader {
    var is_: string
    var scopeCounter: seq<nat>

    constructor (text: string)
      ensures is_ == text && scopeCounter == []
    {
      is_, scopeCounter := text, [];
    }

    /** `None` stands for the end of the file. */
    method NextChar() returns (ch: Option<char>)
      modifies this`is_
      ensures old(is_) == "" ==> ch == None && is_ == ""
      ensures old(is_) != "" ==> ch == Some(old(is_)[0]) && is_ == old(is_)[1..]
    {
      if is_ == "" { return None; }
      ch := Some(is_[0]);
      is_ := is_[1..];
    }

    method PeekNextChar() returns (ch: Option<char>)
      ensures ch == if is_ == "" then None else Some(is_[0])
    {
      return if is_ == "" then None else Some(is_[0]);
    }

    method NextNonSpace() returns (ch: Option<char>)
      modifies this`is_
      ensures var u := SkipSpace(old(is_));
              if u == "" then ch == None && is_ == "" else ch == Some(u[0]) && is_ == u[1..]
    {
      ch := NextChar();
      while ch.Some? && IsSpace(ch.value)
        invariant ch.None? ==> is_ == "" && SkipSpace(old(is_)) == ""
        invariant ch.Some? ==> SkipSpace([ch.value] + is_) == SkipSpace(old(is_))
        decreases ch.Some?, |is_|
      {
        assert ([ch.value] + is_)[1..] == is_;
        ghost var before := is_;
        ch := NextChar();
        if ch.Some? { assert [ch.value] + is_ == before; }
      }
      if ch.Some? { assert ([ch.value] + is_)[1..] == is_; }
    }

    method PeekNextNonSpace() returns (ch: Option<char>)
      modifies this`is_
      ensures is_ == SkipSpace(old(is_)) && ch == if is_ == "" then None else Some(is_[0])
    {
      ch := PeekNextChar();
      while ch.Some? && IsSpace(ch.value)
        invariant SkipSpace(is_) == SkipSpace(old(is_)) && ch == if is_ == "" then None else Some(is_[0])
        decreases |is_|
      {
        var c := NextChar();
        ch := PeekNextChar();
      }
    }

    /** The result of reading the rest when `done` has been read before it. */
    static ghost function Onto(done: string, r: Result<Parsed<string>, Error>): Result<Parsed<string>, Error> {
      match r
      case Err(e) => Err(e)
      case Ok(v) => Ok(Parsed(done + v.value, v.rest))
    }

    method ReadString() returns (r: Result<string, Error>)
      modifies this`is_
      ensures match JsonText.ReadString(old(is_))
              case Err(e) => r == Err(e)
              case Ok(v) => r == Ok(v.value) && is_ == v.rest
    {
      var ch := NextNonSpace();
      if ch != Some('\"') { return Err(ExpectQuote); }
      ghost var start := is_;
      var output := "";
      OntoNothing(ReadChars(start));
      while true
        invariant ReadChars(start) == Onto(output, ReadChars(is_))
        decreases |is_|
      {
        ghost var before, done := is_, output;
        ch := NextChar();
        if ch == None { return Err(EndOfLine); }
        if ch.value == '\\' {
          var sch := NextChar();
          if sch == None || Unescape(sch.value) == None { return Err(UnknownEscape); }
          assert is_ == before[2..];
          output := output + [Unescape(sch.value).value];
          OntoMore(done, Unescape(sch.value).value, ReadChars(is_));
        } else {
          if ch.value == '\"' {
            assert done + "" == done;
            break;
          }
          if ch.value == '\r' || ch.value == '\n' { return Err(EndOfLine); }
          output := output + [ch.value];
          OntoMore(done, ch.value, ReadChars(is_));
        }
      }
      return Ok(output);
    }

    static lemma OntoNothing(r: Result<Parsed<string>, Error>)
      ensures Onto("", r) == r
    {
      if r.Ok? { assert "" + r.value.value == r.value.value; }
    }

    static lemma OntoMore(done: string, c: char, r: Result<Parsed<string>, Error>)
      ensures Onto(done + [c], r)
           == Onto(done, match r case Err(e) => Err(e) case Ok(v) => Ok(Parsed([c] + v.value, v.rest)))
    {
      if r.Ok? { assert done + [c] + r.value.value == done + ([c] + r.value.value); }
    }

    /** The extraction itself is the standard stream's. */
    method ReadNumber(bits: nat) returns (r: Result<int, Error>)
      modifies this`is_
      ensures match JsonText.ReadNumber(bits, old(is_))
              case Err(e) => r == Err(e)
              case Ok(v) => r == Ok(v.value) && is_ == v.rest
    {
      match JsonText.ReadNumber(bits, is_)
      case Err(e) => return Err(e);
      case Ok(v) =>
        is_ := v.rest;
        return Ok(v.value);
    }

    method Begin(open: char, error: Error) returns (r: Result<(), Error>)
      modifies this
      ensures if NextIs(old(is_), open)
              then r == Ok(()) && is_ == Behind(old(is_)) && scopeCounter == old(scopeCounter) + [0]
              else r == Err(error)
    {
      var ch := NextNonSpace();
      if ch != Some(open) { return Err(error); }
      scopeCounter := scopeCounter + [0];
      return Ok(());
    }

    /** The part that arrays and objects share: whether another item follows in the innermost scope. */
    method NextInScope(close: char) returns (r: Result<bool, Error>)
      requires scopeCounter != []
      modifies this
      ensures var n := |old(scopeCounter)| - 1;
              match NextItem(old(is_), old(scopeCounter)[n], close)
              case Err(e) => r == Err(e)
              case Ok(End(rest)) => r == Ok(false) && is_ == rest && scopeCounter == old(scopeCounter)[..n]
              case Ok(Item(rest)) =>
                && r == Ok(true) && is_ == rest
                && scopeCounter == old(scopeCounter)[..n] + [old(scopeCounter)[n] + 1]
    {
      var n := |scopeCounter| - 1;
      var next := true;
      if scopeCounter[n] != 0 {
        var ch := NextNonSpace();
        if ch == None { next := false; }
        else if ch == Some(close) { next := false; }
        else if ch != Some(',') { return Err(ExpectComma); }
      } else {
        var ch := PeekNextNonSpace();
        if ch == Some(close) {
          ch := NextChar();
          next := false;
        }
      }
      if !next {
        scopeCounter := scopeCounter[..n];
        return Ok(false);
      }
      scopeCounter := scopeCounter[..n] + [scopeCounter[n] + 1];
      return Ok(true);
    }
  
    method NextArrayItem() returns (r: Result<bool, Error>)
      requires scopeCounter != []
      modifies this
      ensures var n := |old(scopeCounter)| - 1;
              match NextItem(old(is_), old(scopeCounter)[n], ']')
              case Err(e) => r == Err(e)
              case Ok(End(rest)) => r == Ok(false) && is_ == rest && scopeCounter == old(scopeCounter)[..n]
              case Ok(Item(rest)) =>
                && r == Ok(true) && is_ == rest
                && scopeCounter == old(scopeCounter)[..n] + [old(scopeCounter)[n] + 1]
    {
      r := NextInScope(']');
    }

    /** The key of the next item, or `None` at the end of the object. */
    method NextObjectItem() returns (r: Result<Option<string>, Error>)
      requires scopeCounter != []
      modifies this
      ensures var n := |old(scopeCounter)| - 1;
              match NextItem(old(is_), old(scopeCounter)[n], '}')
              case Err(e) => r == Err(e)
              case Ok(End(rest)) => r == Ok(None) && is_ == rest && scopeCounter == old(scopeCounter)[..n]
              case Ok(Item(s)) =>
                match ReadKey(s)
                case Err(e) => r == Err(e)
                case Ok(k) =>
                  && r == Ok(Some(k.value)) && is_ == k.rest
                  && scopeCounter == old(scopeCounter)[..n] + [old(scopeCounter)[n] + 1]
    {
      hide NextItem;
      var next := NextInScope('}');
      if next.Err? { return Err(next.error); }
      if !next.value { return Ok(None); }
      var key := ReadString();
      if key.Err? { return Err(key.error); }
      var ch := NextNonSpace();
      if ch != Some(':') { return Err(ExpectColon); }
      return Ok(Some(key.value));
    }

    method ReadVec(t: Schema) returns (r: Result<seq<Value>, Error>)
      modifies this
      ensures match JsonText.Parse(Vec(t), old(is_))
              case Err(e) => r == Err(e)
              case Ok(v) =>
                v.value.VecV? && r == Ok(v.value.items) && is_ == v.rest && scopeCounter == old(scopeCounter)
      decreases Vec(t), 1
    {
      hide NextItem, NextIs;
      var begin := Begin('[', ExpectBracket);
      if begin.Err? { return Err(begin.error); }
      ghost var start := is_;
      var items: seq<Value> := [];
      var next := NextArrayItem();
      while next.Ok? && next.value
        invariant next.Err? ==> ParseItems(t, start, []) == Err(next.error)
        invariant next.Ok? && next.value ==> scopeCounter == old(scopeCounter) + [|items| + 1]
        invariant next.Ok? && next.value ==> ParseItems(t, start, []) == ItemsFrom(t, is_, items)
        invariant next.Ok? && !next.value ==> ParseItems(t, start, []) == Ok(Parsed(items, is_))
        invariant next.Ok? && !next.value ==> scopeCounter == old(scopeCounter)
        decreases next.Ok? && next.value, |is_|
      {
        var value := this.Read(t);
        if value.Err? { return Err(value.error); }
        items := items + [value.value];
        next := NextArrayItem();
      }
      if next.Err? { return Err(next.error); }
      return Ok(items);
    }

    /** `ParseItems` once an item has been found. */
    static ghost function ItemsFrom(t: Schema, s: string, acc: seq<Value>): Result<Parsed<seq<Value>>, Error> {
      match JsonText.Parse(t, s)
      case Err(e) => Err(e)
      case Ok(v) => ParseItems(t, v.rest, acc + [v.value])
    }

    method ReadPair(first: Schema, second: Schema) returns (r: Result<Value, Error>)
      modifies this
      ensures match JsonText.Parse(Pair(first, second), old(is_))
              case Err(e) => r == Err(e)
              case Ok(v) => r == Ok(v.value) && is_ == v.rest && scopeCounter == old(scopeCounter)
      decreases Pair(first, second), 1
    {
      hide NextItem, NextIs, Behind, JsonText.Parse;
      PairParse(first, second, is_);
      var begin := Begin('[', ExpectBracket);
      if begin.Err? { return Err(begin.error); }
      var next := NextArrayItem();
      if next.Err? { return Err(next.error); }
      if !next.value { return Err(ExpectPair); }
      var a := this.Read(first);
      if a.Err? { return a; }
      next := NextArrayItem();
      if next.Err? { return Err(next.error); }
      if !next.value { return Err(ExpectPair); }
      var b := this.Read(second);
      if b.Err? { return b; }
      next := NextArrayItem();
      if next.Err? { return Err(next.error); }
      if next.value { return Err(ExpectPair); }
      return Ok(PairV(a.value, b.value));
    }

    method ReadMap(t: Schema) returns (r: Result<seq<Entry>, Error>)
      modifies this
      ensures match JsonText.Parse(Map(t), old(is_))
              case Err(e) => r == Err(e)
              case Ok(v) =>
                v.value.MapV? && r == Ok(v.value.entries) && is_ == v.rest && scopeCounter == old(scopeCounter)
      decreases Map(t), 1
    {
      hide NextItem, NextIs, ReadKey, Put;
      var begin := Begin('{', ExpectBrace);
      if begin.Err? { return Err(begin.error); }
      ghost var start := is_;
      var entries: seq<Entry>, count := [], 0;
      var key := NextObjectItem();
      while key.Ok? && key.value.Some?
        invariant key.Err? ==> ParseEntries(t, start, [], 0) == Err(key.error)
        invariant key.Ok? && key.value.Some? ==> scopeCounter == old(scopeCounter) + [count + 1]
        invariant key.Ok? && key.value.Some? ==>
                    ParseEntries(t, start, [], 0) == EntriesFrom(t, key.value.value, is_, entries, count)
        invariant key.Ok? && key.value.None? ==> ParseEntries(t, start, [], 0) == Ok(Parsed(entries, is_))
        invariant key.Ok? && key.value.None? ==> scopeCounter == old(scopeCounter)
        decreases key.Ok? && key.value.Some?, |is_|
      {
        var value := this.Read(t);
        if value.Err? { return Err(value.error); }
        entries := Put(entries, key.value.value, value.value);
        count := count + 1;
        key := NextObjectItem();
      }
      if key.Err? { return Err(key.error); }
      return Ok(entries);
    }

    /** `ParseEntries` once a key has been found. */
    static ghost function EntriesFrom(t: Schema, key: string, s: string, acc: seq<Entry>, count: nat)
      : Result<Parsed<seq<Entry>>, Error>
    {
      match JsonText.Parse(t, s)
      case Err(e) => Err(e)
      case Ok(v) => ParseEntries(t, v.rest, Put(acc, key, v.value), count + 1)
    }

    /** The handlers, chosen by type. */
    method Read(t: Schema) returns (r: Result<Value, Error>)
      modifies this
      ensures match JsonText.Parse(t, old(is_))
              case Err(e) => r == Err(e)
              case Ok(v) => r == Ok(v.value) && is_ == v.rest && scopeCounter == old(scopeCounter)
      decreases t, 2
    {
      match t
      case Int(bits) =>
        var i := ReadNumber(bits);
        return match i case Err(e) => Err(e) case Ok(n) => Ok(IntV(n));
      case Str =>
        var text := ReadString();
        return match text case Err(e) => Err(e) case Ok(s) => Ok(StrV(s));
      case Vec(elem) =>
        var items := ReadVec(elem);
        return match items case Err(e) => Err(e) case Ok(vs) => Ok(VecV(vs));
      case Pair(first, second) =>
        r := ReadPair(first, second);
      case Map(elem) =>
        var entries := ReadMap(elem);
        return match entries case Err(e) => Err(e) case Ok(es) => Ok(MapV(es));
    }
  }

  /** A reader given what a writer wrote, with anything behind it, stops right behind it with the same value. */
  method WriteThenRead(t: Schema, v: Value, rest: string) returns (r: Result<Value, Error>, left: string)
    requires HasType(t, v) && KeysClean(v) && (t.Int? ==> !StartsWithDigit(rest))
    ensures r == Ok(v) && left == rest
  {
    hide Render, Parse;
    var writer := new JSONWriter();
    writer.Write(t, v);
    var reader := new JSONReader(writer.os + rest);
    RoundTrip(t, v, [], rest);
    assert "" + Render(t, v, []) == Render(t, v, []);
    r := reader.Read(t);
    left := reader.is_;
    assert writer.scopeCounter == [] && reader.scopeCounter == [];
  }

  lemma Chain(before: string, open: string, done: string, item: string)
    ensures before + (open + done) + item == before + (open + (done + item))
  {
  }

  lemma Close(before: string, done: string, ending: string, close: string)
    ensures before + done + ending + close == before + (done + ending + close)
  {
  }

  lemma ItemsAdvance(t: Schema, vs: seq<Value>, ml: seq<bool>, i: nat, done: string)
    requires i < |vs| && AllHaveType(t, vs[i..])
    ensures HasType(t, vs[i]) && AllHaveType(t, vs[i + 1..])
    ensures var item := Comma(i) + Separator(ml) + Render(t, vs[i], ml);
            done + RenderItems(t, vs[i..], ml, i) == done + item + RenderItems(t, vs[i + 1..], ml, i + 1)
  {
    hide Comma, Separator, Render;
    assert vs[i..][0] == vs[i] && vs[i..][1..] == vs[i + 1..];
  }

  lemma ItemsDone(t: Schema, vs: seq<Value>, ml: seq<bool>, done: string)
    requires AllHaveType(t, vs)
    requires var inner := ml + [VecMultiLine(t, |vs|)];
             vs[|vs|..] == [] && done + RenderItems(t, vs[|vs|..], inner, |vs|) == RenderItems(t, vs, inner, 0)
    ensures Render(Vec(t), VecV(vs), ml) == "[" + done + Ending(ml, VecMultiLine(t, |vs|), |vs|) + "]"
  {
    assert done + "" == done;
  }

  lemma EntriesAdvance(t: Schema, es: seq<Entry>, ml: seq<bool>, i: nat, done: string)
    requires i < |es| && EntriesHaveType(t, es[i..])
    ensures HasType(t, es[i].value) && EntriesHaveType(t, es[i + 1..])
    ensures var item := Comma(i) + Separator(ml) + "\"" + es[i].key + "\": " + Render(t, es[i].value, ml);
            done + RenderEntries(t, es[i..], ml, i) == done + item + RenderEntries(t, es[i + 1..], ml, i + 1)
  {
    hide Comma, Separator, Render;
    assert es[i..][0] == es[i] && es[i..][1..] == es[i + 1..];
  }

  lemma EntriesDone(t: Schema, es: seq<Entry>, ml: seq<bool>, done: string)
    requires EntriesHaveType(t, es)
    requires var inner := ml + [|es| > 1];
             es[|es|..] == [] && done + RenderEntries(t, es[|es|..], inner, |es|) == RenderEntries(t, es, inner, 0)
    ensures Render(Map(t), MapV(es), ml) == "{" + done + Ending(ml, |es| > 1, |es|) + "}"
  {
    assert done + "" == done;
  }

  lemma PairParse(first: Schema, second: Schema, s: string)
    ensures Parse(Pair(first, second), s)
         == if !NextIs(s, '[') then Err(ExpectBracket) else ParsePair(first, second, Behind(s))
  {
  }

  lemma PairJoined(before: string, first: Schema, second: Schema, a: Value, b: Value, ml: seq<bool>)
    requires HasType(first, a) && HasType(second, b)
    ensures var inner := ml + [true];
            var one := Comma(0) + Separator(inner) + Render(first, a, inner);
            var two := Comma(1) + Separator(inner) + Render(second, b, inner);
            before + "[" + one + two + Ending(ml, true, 2) + "]" == before + ("[" + PairText(first, second, a, b, ml))
  {
    hide Separator, Render, Ending, Comma;
  }
}
