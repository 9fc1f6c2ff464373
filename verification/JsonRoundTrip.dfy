module JsonRoundTrip {
  /** Reading what was written gives back the value, for every type and every layout. */

  import opened Wrappers
  import opened JsonText

  // ---------------------------------------------------------------------------
  // White space
  // ---------------------------------------------------------------------------

  predicate AllSpace(s: string) { forall c <- s :: IsSpace(c) }

  lemma {:induction false} SkipAllSpace(w: string, s: string)
    requires AllSpace(w)
    ensures SkipSpace(w + s) == SkipSpace(s)
  {
    if w == "" {
      assert w + s == s;
    } else {
      assert (w + s)[1..] == w[1..] + s;
      SkipAllSpace(w[1..], s);
    }
  }

  lemma {:induction false} SpacesAreSpace(n: nat)
    ensures AllSpace(Spaces(n))
  {
    if n > 0 { SpacesAreSpace(n - 1); }
  }

  lemma SeparatorIsSpace(ml: seq<bool>)
    ensures AllSpace(Separator(ml))
  {
    SpacesAreSpace(2 * |ml|);
  }

  // ---------------------------------------------------------------------------
  // Numbers
  // ---------------------------------------------------------------------------

  predicate StartsWithDigit(s: string) { s != "" && IsDigit(s[0]) }

  /** The number whose digits are those of `m` followed by those of `n`. */
  function Append(m: nat, n: nat): nat {
    if n < 10 then 10 * m + n else 10 * Append(m, n / 10) + n % 10
  }

  lemma {:induction false} AppendToZero(n: nat)
    ensures Append(0, n) == n
  {
    if n >= 10 { AppendToZero(n / 10); }
  }

  lemma {:induction false} DecimalIsDigits(n: nat)
    ensures |Decimal(n)| > 0 && forall c <- Decimal(n) :: IsDigit(c)
  {
    if n >= 10 { DecimalIsDigits(n / 10); }
  }

  /** Reading the digits of `n` after having read `m` continues with both. */
  lemma ReadDigit(d: nat, m: nat, rest: string)
    requires d < 10
    ensures ReadDigits([Digit(d)] + rest, m) == ReadDigits(rest, 10 * m + d)
  {
    var s := [Digit(d)] + rest;
    assert s[1..] == rest && IsDigit(s[0]) && DigitValue(s[0]) == d;
  }

  lemma {:induction false} ReadDecimal(n: nat, m: nat, rest: string)
    ensures ReadDigits(Decimal(n) + rest, m) == ReadDigits(rest, Append(m, n))
  {
    if n < 10 {
      ReadDigit(n, m, rest);
    } else {
      var tail := [Digit(n % 10)] + rest;
      assert Decimal(n) + rest == Decimal(n / 10) + tail;
      ReadDecimal(n / 10, m, tail);
      ReadDigit(n % 10, Append(m, n / 10), rest);
    }
  }

  lemma DecimalReadsBack(n: nat, rest: string)
    requires !StartsWithDigit(rest)
    ensures var s := Decimal(n) + rest;
            s != "" && IsDigit(s[0]) && ReadDigits(s[1..], DigitValue(s[0])) == Parsed(n, rest)
  {
    var s := Decimal(n) + rest;
    DecimalIsDigits(n);
    assert s[0] == Decimal(n)[0] && Decimal(n)[0] in Decimal(n);
    ReadDecimal(n, 0, rest);
    AppendToZero(n);
    assert ReadDigits(s, 0) == ReadDigits(s[1..], DigitValue(s[0]));
  }

  lemma NumberReadsBack(bits: nat, i: int, s: string, rest: string)
    requires Fits(bits, i) && !StartsWithDigit(rest) && SkipSpace(s) == Number(i) + rest
    ensures ReadNumber(bits, s) == Ok(Parsed(i, rest))
  {
    hide Decimal, ReadDigits, SkipSpace, Fits;
    var n: nat := if i < 0 then -i else i;
    var d := Decimal(n) + rest;
    DecimalReadsBack(n, rest);
    assert SkipSpace(s) == if i < 0 then "-" + d else d;
    assert IsDigit(d[0]);
    if i < 0 {
      assert ("-" + d)[1..] == d;
    }
  }

  // ---------------------------------------------------------------------------
  // Strings and keys
  // ---------------------------------------------------------------------------

  lemma ReadEscape(x: char, tail: string)
    requires Unescape(x).Some? && ReadChars(tail).Ok?
    ensures var r := ReadChars(tail).value;
            ReadChars(['\\', x] + tail) == Ok(Parsed([Unescape(x).value] + r.value, r.rest))
  {
    hide Unescape;
    var s := ['\\', x] + tail;
    assert s[2..] == tail;
    assert s[0] == '\\' && s[1] == x;
  }

  lemma ReadPlain(c: char, tail: string)
    requires CleanChar(c) && ReadChars(tail).Ok?
    ensures var r := ReadChars(tail).value;
            ReadChars([c] + tail) == Ok(Parsed([c] + r.value, r.rest))
  {
    var s := [c] + tail;
    assert s[1..] == tail;
    assert s[0] == c;
  }

  predicate CleanChar(c: char) { c != '\"' && c != '\\' && c != '\r' && c != '\n' }

  lemma EscapedCharReadsBack(c: char, tail: string)
    requires ReadChars(tail).Ok?
    ensures var r := ReadChars(tail).value;
            ReadChars(EscapeChar(c) + tail) == Ok(Parsed([c] + r.value, r.rest))
  {
    hide ReadChars;
    var e := EscapeChar(c);
    if |e| == 2 {
      assert e == ['\\', e[1]] && Unescape(e[1]) == Some(c);
      ReadEscape(e[1], tail);
    } else {
      assert e == [c] && CleanChar(c);
      ReadPlain(c, tail);
    }
  }

  lemma {:induction false} EscapedReadsBack(s: string, rest: string)
    ensures ReadChars(Escape(s) + "\"" + rest) == Ok(Parsed(s, rest))
  {
    if s == "" {
      assert Escape(s) + "\"" + rest == "\"" + rest;
    } else {
      hide ReadChars, EscapeChar;
      var tail := Escape(s[1..]) + "\"" + rest;
      assert Escape(s) + "\"" + rest == EscapeChar(s[0]) + tail;
      EscapedReadsBack(s[1..], rest);
      EscapedCharReadsBack(s[0], tail);
      assert [s[0]] + s[1..] == s;
    }
  }

  /** A key that the writer, which does not escape keys, can write. */
  predicate CleanKey(k: string) { forall c <- k :: CleanChar(c) }

  lemma {:induction false} CleanCharsReadBack(k: string, rest: string)
    requires CleanKey(k)
    ensures ReadChars(k + "\"" + rest) == Ok(Parsed(k, rest))
  {
    if k == "" {
      assert k + "\"" + rest == "\"" + rest;
    } else {
      assert CleanChar(k[0]) && forall c <- k[1..] :: c in k;
      assert k + "\"" + rest == [k[0]] + (k[1..] + "\"" + rest);
      CleanCharsReadBack(k[1..], rest);
      ReadPlain(k[0], k[1..] + "\"" + rest);
      assert [k[0]] + k[1..] == k;
    }
  }

  predicate Backslashes(w: string) { forall i | 0 <= i < |w| :: w[i] == '\\' }

  /** What is read of `u` and a quote never is `u` with backslashes before it. */
  lemma {:induction false} NoBackslashesGained(w: string, u: string, rest: string)
    requires w != "" && Backslashes(w)
    ensures var r := ReadChars(u + "\"" + rest); r.Ok? ==> r.value.value != w + u
    decreases |u|
  {
    var s := u + "\"" + rest;
    assert (w + u)[0] == '\\';
    if |u| >= 2 && u[0] == '\\' && ReadChars(s).Ok? {
      var shifted := w[1..] + "\\\\";
      assert s[2..] == u[2..] + "\"" + rest;
      NoBackslashesGained(shifted, u[2..], rest);
      assert ReadChars(s).value.value[1..] == ReadChars(s[2..]).value.value;
      if u[1] == '\\' {
        assert u == "\\\\" + u[2..];
        assert (w + u)[1..] == shifted + u[2..];
      }
    }
  }

  lemma {:induction false} UncleanCharsDiffer(k: string, rest: string)
    requires !CleanKey(k)
    ensures var r := ReadChars(k + "\"" + rest); r.Ok? ==> r.value.value != k
  {
    var s := k + "\"" + rest;
    var r := ReadChars(s);
    if CleanChar(k[0]) {
      assert s[1..] == k[1..] + "\"" + rest;
      assert k == [k[0]] + k[1..];
      UncleanCharsDiffer(k[1..], rest);
      if r.Ok? {
        assert r.value.value[1..] == ReadChars(s[1..]).value.value;
      }
    } else if |k| >= 2 && k[0] == '\\' && r.Ok? {
      assert s[2..] == k[2..] + "\"" + rest;
      NoBackslashesGained("\\", k[2..], rest);
      assert r.value.value[1..] == ReadChars(s[2..]).value.value;
      if k[1] == '\\' { assert k[1..] == "\\" + k[2..]; }
    }
  }

  /** A key reads back from what the writer makes of it exactly when it needs no escapes. */
  lemma KeyReadsBackIffClean(k: string, rest: string)
    ensures var r := ReadString("\"" + k + "\"" + rest);
            (r.Ok? && r.value.value == k <==> CleanKey(k)) && (CleanKey(k) ==> r == Ok(Parsed(k, rest)))
  {
    var s := "\"" + k + "\"" + rest;
    assert SkipSpace(s) == s && s[1..] == k + "\"" + rest;
    if CleanKey(k) {
      CleanCharsReadBack(k, rest);
    } else {
      UncleanCharsDiffer(k, rest);
    }
  }

  // ---------------------------------------------------------------------------
  // Values
  // ---------------------------------------------------------------------------

  /** No map anywhere in the value has a key that needs an escape. */
  predicate KeysClean(v: Value)
    decreases v, 1
  {
    match v
    case VecV(items) => AllKeysClean(items)
    case PairV(a, b) => KeysClean(a) && KeysClean(b)
    case MapV(entries) => EntryKeysClean(entries)
    case IntV(_) => true
    case StrV(_) => true
  }

  predicate AllKeysClean(vs: seq<Value>)
    decreases vs, 0
  {
    vs == [] || (KeysClean(vs[0]) && AllKeysClean(vs[1..]))
  }

  predicate EntryKeysClean(es: seq<Entry>)
    decreases es, 0
  {
    es == [] || (CleanKey(es[0].key) && KeysClean(es[0].value) && EntryKeysClean(es[1..]))
  }

  /** What begins a value or a key: neither space nor the end of a scope. */
  predicate PlainStart(s: string) { s != "" && !IsSpace(s[0]) && s[0] != ']' && s[0] != '}' }

  lemma RenderStart(t: Schema, v: Value, ml: seq<bool>)
    requires HasType(t, v)
    ensures PlainStart(Render(t, v, ml))
  {
    if v.IntV? && v.i >= 0 {
      DecimalIsDigits(v.i);
      assert Decimal(v.i)[0] in Decimal(v.i);
    }
  }

  /** What `NextItem` makes of a separator with something behind it. */
  lemma ItemFound(count: nat, ml: seq<bool>, body: string, close: char)
    requires PlainStart(body) && (close == ']' || close == '}')
    ensures var r := NextItem(Comma(count) + Separator(ml) + body, count, close);
            r.Ok? && r.value.Item? && SkipSpace(r.value.rest) == body
  {
    hide Separator;
    var s := Comma(count) + Separator(ml) + body;
    SeparatorIsSpace(ml);
    SkipAllSpace(Separator(ml), body);
    assert SkipSpace(body) == body;
    if count == 0 {
      assert s == Separator(ml) + body;
    } else {
      var w := " " + Separator(ml);
      assert s == "," + (w + body);
      assert SkipSpace(s) == s && s[1..] == w + body;
      SkipAllSpace(w, body);
    }
  }

  lemma EndFound(count: nat, ml: seq<bool>, m: bool, size: nat, close: char, rest: string)
    requires close == ']' || close == '}'
    ensures var s := Ending(ml, m, size) + [close] + rest;
            NextItem(s, count, close) == Ok(End(rest)) && !StartsWithDigit(s)
  {
    hide Separator;
    var w := Ending(ml, m, size);
    var s := [close] + rest;
    SeparatorIsSpace(ml);
    assert w + [close] + rest == w + s;
    SkipAllSpace(w, s);
    assert SkipSpace(s) == s && s[1..] == rest;
    if w != "" { assert IsSpace(w[0]); }
  }

  /** What follows a value in its scope: a comma, a line break or the end of the scope. */
  lemma ItemsStart(t: Schema, vs: seq<Value>, ml: seq<bool>, count: nat, tail: string)
    requires AllHaveType(t, vs) && count > 0 && !StartsWithDigit(tail)
    ensures !StartsWithDigit(RenderItems(t, vs, ml, count) + tail)
  {
    if vs != [] {
      assert RenderItems(t, vs, ml, count)[0] == ',';
    } else {
      assert RenderItems(t, vs, ml, count) + tail == tail;
    }
  }

  lemma EntriesStart(t: Schema, es: seq<Entry>, ml: seq<bool>, count: nat, tail: string)
    requires EntriesHaveType(t, es) && count > 0 && !StartsWithDigit(tail)
    ensures !StartsWithDigit(RenderEntries(t, es, ml, count) + tail)
  {
    if es != [] {
      assert RenderEntries(t, es, ml, count)[0] == ',';
    } else {
      assert RenderEntries(t, es, ml, count) + tail == tail;
    }
  }

  lemma {:induction false} ParseRender(t: Schema, v: Value, ml: seq<bool>, s: string, rest: string)
    requires HasType(t, v) && KeysClean(v) && (t.Int? ==> !StartsWithDigit(rest))
    requires SkipSpace(s) == Render(t, v, ml) + rest
    ensures Parse(t, s) == Ok(Parsed(v, rest))
    decreases v, 2
  {
    hide Parse, Render;
    match v
    case IntV(i) => IntRender(t.bits, i, ml, s, rest);
    case StrV(text) => StrRender(text, ml, s, rest);
    case VecV(items) => VecRender(t.elem, items, ml, s, rest);
    case PairV(a, b) => PairRender(t.first, t.second, a, b, ml, s, rest);
    case MapV(entries) => MapRender(t.elem, entries, ml, s, rest);
  }

  lemma IntRender(bits: nat, i: int, ml: seq<bool>, s: string, rest: string)
    requires Fits(bits, i) && !StartsWithDigit(rest) && SkipSpace(s) == Render(Int(bits), IntV(i), ml) + rest
    ensures Parse(Int(bits), s) == Ok(Parsed(IntV(i), rest))
  {
    hide SkipSpace, ReadNumber, Number;
    NumberReadsBack(bits, i, s, rest);
  }

  lemma StrRender(text: string, ml: seq<bool>, s: string, rest: string)
    requires SkipSpace(s) == Render(Str, StrV(text), ml) + rest
    ensures Parse(Str, s) == Ok(Parsed(StrV(text), rest))
  {
    hide SkipSpace, ReadChars, Escape;
    EscapedReadsBack(text, rest);
    assert SkipSpace(s)[1..] == Escape(text) + "\"" + rest;
  }

  lemma {:induction false} VecRender(t: Schema, vs: seq<Value>, ml: seq<bool>, s: string, rest: string)
    requires AllHaveType(t, vs) && AllKeysClean(vs)
    requires SkipSpace(s) == Render(Vec(t), VecV(vs), ml) + rest
    ensures Parse(Vec(t), s) == Ok(Parsed(VecV(vs), rest))
    decreases VecV(vs), 0
  {
    hide SkipSpace, Separator, NextItem, Ending, ParseItems, RenderItems;
    var m := VecMultiLine(t, |vs|);
    var tail := Ending(ml, m, |vs|) + "]" + rest;
    EndFound(|vs|, ml, m, |vs|, ']', rest);
    assert SkipSpace(s)[1..] == RenderItems(t, vs, ml + [m], 0) + tail;
    assert [] + vs == vs;
    ItemsRender(t, vs, ml + [m], tail, [], rest);
  }

  lemma {:induction false} MapRender(t: Schema, es: seq<Entry>, ml: seq<bool>, s: string, rest: string)
    requires EntriesHaveType(t, es) && EntryKeysClean(es)
    requires SkipSpace(s) == Render(Map(t), MapV(es), ml) + rest
    ensures Parse(Map(t), s) == Ok(Parsed(MapV(es), rest))
    decreases MapV(es), 0
  {
    hide SkipSpace, Separator, NextItem, Ending, ParseEntries, RenderEntries, Fresh;
    var m := |es| > 1;
    var tail := Ending(ml, m, |es|) + "}" + rest;
    EndFound(|es|, ml, m, |es|, '}', rest);
    assert SkipSpace(s)[1..] == RenderEntries(t, es, ml + [m], 0) + tail;
    NothingFound([], es);
    assert [] + es == es;
    EntriesRender(t, es, ml + [m], tail, [], rest);
  }

  function PairText(first: Schema, second: Schema, a: Value, b: Value, ml: seq<bool>): string
    requires HasType(first, a) && HasType(second, b)
  {
    var inner := ml + [true];
    Comma(0) + Separator(inner) + Render(first, a, inner)
    + Comma(1) + Separator(inner) + Render(second, b, inner) + Ending(ml, true, 2) + "]"
  }

  lemma PairRendered(first: Schema, second: Schema, a: Value, b: Value, ml: seq<bool>)
    requires HasType(first, a) && HasType(second, b)
    ensures Render(Pair(first, second), PairV(a, b), ml) == "[" + PairText(first, second, a, b, ml)
  {
    hide Separator, Ending, Comma;
  }

  lemma PairRender(first: Schema, second: Schema, a: Value, b: Value, ml: seq<bool>, s: string, rest: string)
    requires HasType(first, a) && HasType(second, b) && KeysClean(a) && KeysClean(b)
    requires SkipSpace(s) == Render(Pair(first, second), PairV(a, b), ml) + rest
    ensures Parse(Pair(first, second), s) == Ok(Parsed(PairV(a, b), rest))
    decreases PairV(a, b), 1
  {
    hide SkipSpace, ParsePair, Render, PairText;
    PairRendered(first, second, a, b, ml);
    var text := PairText(first, second, a, b, ml) + rest;
    assert SkipSpace(s) == "[" + text;
    PairTextRender(first, second, a, b, ml, rest);
  }

  lemma {:induction false} PairTextRender(first: Schema, second: Schema, a: Value, b: Value, ml: seq<bool>,
      rest: string)
    requires HasType(first, a) && HasType(second, b) && KeysClean(a) && KeysClean(b)
    ensures ParsePair(first, second, PairText(first, second, a, b, ml) + rest) == Ok(Parsed(PairV(a, b), rest))
    decreases PairV(a, b), 0
  {
    hide SkipSpace, Separator, NextItem, Ending, Comma, Parse, Render;
    var inner := ml + [true];
    var s3 := Ending(ml, true, 2) + "]" + rest;
    EndFound(2, ml, true, 2, ']', rest);
    var body2 := Render(second, b, inner) + s3;
    var s2 := Comma(1) + Separator(inner) + body2;
    var body1 := Render(first, a, inner) + s2;
    var s1 := Comma(0) + Separator(inner) + body1;
    assert PairText(first, second, a, b, ml) + rest == s1;
    RenderStart(first, a, inner);
    RenderStart(second, b, inner);
    ItemFound(0, inner, body1, ']');
    ItemFound(1, inner, body2, ']');
    CommaStarts(Separator(inner) + body2);
    assert s2 == Comma(1) + (Separator(inner) + body2);
    ParseRender(first, a, inner, NextItem(s1, 0, ']').value.rest, s2);
    ParseRender(second, b, inner, NextItem(s2, 1, ']').value.rest, s3);
  }

  lemma CommaStarts(s: string)
    ensures !StartsWithDigit(Comma(1) + s)
  {
  }

  lemma {:induction false} ItemsRender(t: Schema, vs: seq<Value>, ml: seq<bool>, tail: string, acc: seq<Value>,
      rest: string)
    requires AllHaveType(t, vs) && AllKeysClean(vs) && !StartsWithDigit(tail)
    requires NextItem(tail, |acc + vs|, ']') == Ok(End(rest))
    ensures ParseItems(t, RenderItems(t, vs, ml, |acc|) + tail, acc) == Ok(Parsed(acc + vs, rest))
    decreases vs, 0
  {
    hide SkipSpace, Separator, NextItem, Comma, Parse, Render;
    var s := RenderItems(t, vs, ml, |acc|) + tail;
    if vs == [] {
      assert s == tail && acc + vs == acc;
    } else {
      var next := acc + [vs[0]];
      var s2 := RenderItems(t, vs[1..], ml, |next|) + tail;
      var body := Render(t, vs[0], ml) + s2;
      assert s == Comma(|acc|) + Separator(ml) + body;
      RenderStart(t, vs[0], ml);
      ItemFound(|acc|, ml, body, ']');
      ItemsStart(t, vs[1..], ml, |next|, tail);
      ParseRender(t, vs[0], ml, NextItem(s, |acc|, ']').value.rest, s2);
      assert next + vs[1..] == acc + vs;
      ItemsRender(t, vs[1..], ml, tail, next, rest);
    }
  }

  /** No key of `es` is in `acc`. */
  predicate Fresh(acc: seq<Entry>, es: seq<Entry>) { forall e <- es :: Lookup(acc, e.key).None? }

  lemma NothingFound(acc: seq<Entry>, es: seq<Entry>)
    ensures acc == [] ==> Fresh(acc, es)
  {
  }

  lemma {:induction false} LookupAppend(es: seq<Entry>, e: Entry, key: string)
    requires Lookup(es, key).None? && e.key != key
    ensures Lookup(es + [e], key).None?
  {
    if es != [] {
      assert (es + [e])[1..] == es[1..] + [e];
      LookupAppend(es[1..], e, key);
    }
  }

  lemma {:induction false} LookupFinds(es: seq<Entry>, key: string, k: nat)
    requires Lookup(es, key).None? && k < |es|
    ensures es[k].key != key
  {
    if k > 0 { LookupFinds(es[1..], key, k - 1); }
  }

  /** Reading the first key of `es` leaves the others fresh. */
  lemma FreshAfterPut(acc: seq<Entry>, es: seq<Entry>)
    requires es != [] && Fresh(acc, es) && Lookup(es[1..], es[0].key).None?
    ensures Put(acc, es[0].key, es[0].value) == acc + [es[0]]
    ensures Fresh(acc + [es[0]], es[1..])
  {
    assert es[0] in es;
    forall k | 0 <= k < |es[1..]| ensures Lookup(acc + [es[0]], es[1..][k].key).None? {
      LookupFinds(es[1..], es[0].key, k);
      assert es[1..][k] in es;
      LookupAppend(acc, es[0], es[1..][k].key);
    }
  }

  lemma KeyRender(k: string, s: string, tail: string)
    requires CleanKey(k) && SkipSpace(s) == "\"" + k + "\": " + tail
    ensures ReadKey(s) == Ok(Parsed(k, " " + tail))
  {
    hide ReadChars;
    var after := ": " + tail;
    CleanCharsReadBack(k, after);
    assert SkipSpace(s)[1..] == k + "\"" + after;
    assert SkipSpace(after) == after && after[1..] == " " + tail;
  }

  lemma {:induction false} EntriesRender(t: Schema, es: seq<Entry>, ml: seq<bool>, tail: string, acc: seq<Entry>,
      rest: string)
    requires EntriesHaveType(t, es) && EntryKeysClean(es) && !StartsWithDigit(tail) && Fresh(acc, es)
    requires NextItem(tail, |acc + es|, '}') == Ok(End(rest))
    ensures ParseEntries(t, RenderEntries(t, es, ml, |acc|) + tail, acc, |acc|) == Ok(Parsed(acc + es, rest))
    decreases es, 0
  {
    hide SkipSpace, Separator, NextItem, Comma, Parse, Render, Put, Lookup, ReadKey, Fresh;
    hide CleanKey, PlainStart, StartsWithDigit, HasType, KeysClean;
    var s := RenderEntries(t, es, ml, |acc|) + tail;
    if es == [] {
      assert s == tail && acc + es == acc;
    } else {
      var key, v, next := es[0].key, es[0].value, acc + [es[0]];
      var s2 := RenderEntries(t, es[1..], ml, |next|) + tail;
      var after := Render(t, v, ml) + s2;
      var body := "\"" + key + "\": " + after;
      assert s == Comma(|acc|) + Separator(ml) + body;
      KeyStart(key, after);
      ItemFound(|acc|, ml, body, '}');
      KeyRender(key, NextItem(s, |acc|, '}').value.rest, after);
      RenderStart(t, v, ml);
      SpaceBefore(after);
      EntriesStart(t, es[1..], ml, |next|, tail);
      ParseRender(t, v, ml, " " + after, s2);
      FreshAfterPut(acc, es);
      assert next + es[1..] == acc + es;
      EntriesRender(t, es[1..], ml, tail, next, rest);
    }
  }

  lemma KeyStart(key: string, after: string)
    ensures PlainStart("\"" + key + "\": " + after)
  {
  }

  lemma SpaceBefore(s: string)
    requires PlainStart(s)
    ensures SkipSpace(" " + s) == s
  {
    assert (" " + s)[1..] == s;
  }

  /** For every type, value and layout: reading what was written gives the value and consumes just that. */
  lemma RoundTrip(t: Schema, v: Value, ml: seq<bool>, rest: string)
    requires HasType(t, v) && KeysClean(v) && (t.Int? ==> !StartsWithDigit(rest))
    ensures Parse(t, Render(t, v, ml) + rest) == Ok(Parsed(v, rest))
  {
    var s := Render(t, v, ml) + rest;
    RenderStart(t, v, ml);
    assert SkipSpace(s) == s;
    ParseRender(t, v, ml, s, rest);
  }

  /** Different values have different texts, so no text stands for two values. */
  lemma RenderIsInjective(t: Schema, v: Value, w: Value, ml: seq<bool>, nl: seq<bool>)
    requires HasType(t, v) && HasType(t, w) && KeysClean(v) && KeysClean(w)
    requires Render(t, v, ml) == Render(t, w, nl)
    ensures v == w
  {
    RoundTrip(t, v, ml, "");
    RoundTrip(t, w, nl, "");
  }

  /** Entries read later do not change the key of the first one. */
  lemma {:induction false} FirstKeyStays(t: Schema, s: string, acc: seq<Entry>, count: nat)
    requires acc != [] && ParseEntries(t, s, acc, count).Ok?
    ensures var es := ParseEntries(t, s, acc, count).value.value; es != [] && es[0].key == acc[0].key
    decreases |s|
  {
    hide NextItem, Parse, ReadKey;
    var item := NextItem(s, count, '}').value;
    if item.Item? {
      var k := ReadKey(item.rest).value;
      var v := Parse(t, k.rest).value;
      PutKeepsFirstKey(acc, k.value, v.value);
      FirstKeyStays(t, v.rest, Put(acc, k.value, v.value), count + 1);
    }
  }

  lemma {:induction false} LookupInside(es: seq<Entry>, key: string)
    requires Lookup(es, key).Some?
    ensures Lookup(es, key).value < |es| && es[Lookup(es, key).value].key == key
  {
    if es[0].key != key { LookupInside(es[1..], key); }
  }

  lemma PutKeepsFirstKey(es: seq<Entry>, key: string, v: Value)
    requires es != []
    ensures Put(es, key, v) != [] && Put(es, key, v)[0].key == es[0].key
  {
    if Lookup(es, key).Some? { LookupInside(es, key); }
  }

  lemma Regroup(start: string, key: string, value: string, more: string, end: string)
    ensures "{" + (start + "\"" + key + "\": " + value + more) + end
         == "{" + (start + ("\"" + key + "\"" + (": " + (value + more + end))))
  {
    assert "\": " == "\"" + ": ";
    assert start + "\"" + key + "\": " + value + more == start + ("\"" + key + "\"" + (": " + (value + more)));
  }

  lemma MapRendered(t: Schema, es: seq<Entry>, ml: seq<bool>, rest: string)
    requires EntriesHaveType(t, es)
    ensures Render(Map(t), MapV(es), ml) + rest
         == "{" + RenderEntries(t, es, ml + [|es| > 1], 0) + (Ending(ml, |es| > 1, |es|) + "}" + rest)
  {
    hide Separator, Ending, RenderEntries;
  }

  lemma FirstEntryText(t: Schema, es: seq<Entry>, ml: seq<bool>, rest: string) returns (after: string)
    requires EntriesHaveType(t, es) && es != []
    ensures Render(Map(t), MapV(es), ml) + rest
         == "{" + (Comma(0) + Separator(ml + [|es| > 1]) + ("\"" + es[0].key + "\"" + (": " + after)))
  {
    hide Separator, Ending, Comma, Render;
    var inner := ml + [|es| > 1];
    var end := Ending(ml, |es| > 1, |es|) + "}" + rest;
    var value, more := Render(t, es[0].value, inner), RenderEntries(t, es[1..], inner, 1);
    MapRendered(t, es, ml, rest);
    Regroup(Comma(0) + Separator(inner), es[0].key, value, more, end);
    after := value + more + end;
  }

  /** A map whose first key needs an escape does not read back, whatever else it holds and whatever follows. */
  lemma UncleanFirstKeyIsLost(t: Schema, es: seq<Entry>, ml: seq<bool>, rest: string)
    requires EntriesHaveType(t, es) && es != [] && !CleanKey(es[0].key)
    ensures var r := Parse(Map(t), Render(Map(t), MapV(es), ml) + rest); r.Ok? ==> r.value.value != MapV(es)
  {
    assert HasType(Map(t), MapV(es));
    hide NextItem, ReadString, Separator, Render, ParseEntries, HasType, Comma, CleanKey;
    var inner := ml + [|es| > 1];
    var text := Render(Map(t), MapV(es), ml) + rest;
    var after := FirstEntryText(t, es, ml, rest);
    var body := "\"" + es[0].key + "\"" + (": " + after);
    var s := Comma(0) + Separator(inner) + body;
    assert text == "{" + s;
    assert SkipSpace(text) == text && text[1..] == s;
    ItemFound(0, inner, body, '}');
    KeyReadsBackIffClean(es[0].key, ": " + after);
    ReadStringSkips(NextItem(s, 0, '}').value.rest);
    if Parse(Map(t), text).Ok? { FirstEntry(t, s); }
  }

  lemma ReadStringSkips(s: string)
    ensures ReadString(s) == ReadString(SkipSpace(s))
  {
    assert SkipSpace(SkipSpace(s)) == SkipSpace(s);
  }

  lemma FirstEntry(t: Schema, s: string)
    requires NextItem(s, 0, '}').Ok? && NextItem(s, 0, '}').value.Item? && ParseEntries(t, s, [], 0).Ok?
    ensures var k := ReadString(NextItem(s, 0, '}').value.rest);
            k.Ok? && ParseEntries(t, s, [], 0).value.value != []
            && ParseEntries(t, s, [], 0).value.value[0].key == k.value.value
  {
    hide NextItem, Parse, ReadString;
    var k := ReadKey(NextItem(s, 0, '}').value.rest).value;
    var v := Parse(t, k.rest).value;
    assert Put([], k.value, v.value) == [Entry(k.value, v.value)];
    FirstKeyStays(t, v.rest, Put([], k.value, v.value), 1);
  }
}
