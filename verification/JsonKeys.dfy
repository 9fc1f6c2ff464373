module JsonKeys {
  /**
   Which values read back: exactly those all of whose keys, at any depth, need no escapes.

   The proof counts. Whatever the text is taken for, each character of a key or a string that
   the reader returns and that needs an escape has used up backslashes (or a tab) of the text, and
   no two of them the same. A text holds just enough of them for the strings it was written from,
   and for the keys too few, unless they need none.
   */

  import opened Wrappers
  import opened JsonText
  import opened JsonRoundTrip

  /** What a character of the text can pay for. */
  function CreditOf(c: char): nat { if c == '\\' || c == '\t' then 1 else 0 }

  function Credit(s: string): nat { if s == "" then 0 else CreditOf(s[0]) + Credit(s[1..]) }

  /** What it takes to read a character: a backslash is read from two, a tab from itself or an escape. */
  function NeedOf(c: char): nat {
    if c == '\\' then 2 else if c == '\r' || c == '\n' || c == '\"' || c == '\t' then 1 else 0
  }

  function Need(s: string): nat { if s == "" then 0 else NeedOf(s[0]) + Need(s[1..]) }

  /** What it takes to read the strings and the keys of a value, in whatever order its maps are listed. */
  function ValueNeed(v: Value): nat
    decreases v, 1
  {
    match v
    case IntV(_) => 0
    case StrV(s) => Need(s)
    case VecV(items) => ItemsNeed(items)
    case PairV(a, b) => ValueNeed(a) + ValueNeed(b)
    case MapV(entries) => EntriesNeed(entries)
  }

  function ItemsNeed(vs: seq<Value>): nat
    decreases vs, 0
  {
    if vs == [] then 0 else ValueNeed(vs[0]) + ItemsNeed(vs[1..])
  }

  function EntriesNeed(es: seq<Entry>): nat
    decreases es, 0
  {
    if es == [] then 0 else Need(es[0].key) + ValueNeed(es[0].value) + EntriesNeed(es[1..])
  }

  /** How many characters of a key would need an escape. */
  function Unclean(k: string): nat { if k == "" then 0 else (if CleanChar(k[0]) then 0 else 1) + Unclean(k[1..]) }

  function UncleanKeys(v: Value): nat
    decreases v, 1
  {
    match v
    case IntV(_) => 0
    case StrV(_) => 0
    case VecV(items) => UncleanItems(items)
    case PairV(a, b) => UncleanKeys(a) + UncleanKeys(b)
    case MapV(entries) => UncleanEntries(entries)
  }

  function UncleanItems(vs: seq<Value>): nat
    decreases vs, 0
  {
    if vs == [] then 0 else UncleanKeys(vs[0]) + UncleanItems(vs[1..])
  }

  function UncleanEntries(es: seq<Entry>): nat
    decreases es, 0
  {
    if es == [] then 0 else Unclean(es[0].key) + UncleanKeys(es[0].value) + UncleanEntries(es[1..])
  }

  lemma {:induction false} CreditAdds(a: string, b: string)
    ensures Credit(a + b) == Credit(a) + Credit(b)
  {
    if a == "" {
      assert a + b == b;
    } else {
      assert (a + b)[1..] == a[1..] + b;
      CreditAdds(a[1..], b);
    }
  }

  // ---------------------------------------------------------------------------
  // Reading uses up
  // ---------------------------------------------------------------------------

  lemma {:induction false} SkippingUses(s: string)
    ensures Credit(SkipSpace(s)) <= Credit(s)
  {
    if s != "" { SkippingUses(s[1..]); }
  }

  lemma {:induction false} CharsUse(s: string)
    requires ReadChars(s).Ok?
    ensures var r := ReadChars(s).value; Need(r.value) + Credit(r.rest) <= Credit(s)
  {
    var r := ReadChars(s).value;
    if s[0] == '\\' {
      CharsUse(s[2..]);
      assert r.value[1..] == ReadChars(s[2..]).value.value;
      assert s[1..][1..] == s[2..];
    } else if s[0] != '\"' {
      CharsUse(s[1..]);
      assert r.value[1..] == ReadChars(s[1..]).value.value;
    }
  }

  lemma StringUses(s: string)
    requires ReadString(s).Ok?
    ensures var r := ReadString(s).value; Need(r.value) + Credit(r.rest) <= Credit(s)
  {
    SkippingUses(s);
    CharsUse(Behind(s));
  }

  lemma {:induction false} DigitsUse(s: string, n: nat)
    ensures Credit(ReadDigits(s, n).rest) <= Credit(s)
  {
    if s != "" && IsDigit(s[0]) { DigitsUse(s[1..], 10 * n + DigitValue(s[0])); }
  }

  lemma NumberUses(bits: nat, s: string)
    requires ReadNumber(bits, s).Ok?
    ensures Credit(ReadNumber(bits, s).value.rest) <= Credit(s)
  {
    SkippingUses(s);
    var u := SkipSpace(s);
    var d := if u[0] == '-' || u[0] == '+' then u[1..] else u;
    DigitsUse(d[1..], DigitValue(d[0]));
  }

  lemma ItemUses(s: string, count: nat, close: char)
    requires NextItem(s, count, close).Ok?
    ensures Credit(NextItem(s, count, close).value.rest) <= Credit(s)
  {
    SkippingUses(s);
  }

  lemma KeyUses(s: string)
    requires ReadKey(s).Ok?
    ensures var r := ReadKey(s).value; Need(r.value) + Credit(r.rest) <= Credit(s)
  {
    StringUses(s);
    SkippingUses(ReadString(s).value.rest);
  }

  lemma {:induction false} ItemsNeedAdds(vs: seq<Value>, v: Value)
    ensures ItemsNeed(vs + [v]) == ItemsNeed(vs) + ValueNeed(v)
  {
    if vs == [] {
      assert [v][1..] == [];
    } else {
      assert (vs + [v])[1..] == vs[1..] + [v];
      ItemsNeedAdds(vs[1..], v);
    }
  }

  /** A key that is read again replaces its value, which lowers what the map takes. */
  lemma {:induction false} PutNeeds(es: seq<Entry>, key: string, v: Value)
    ensures EntriesNeed(Put(es, key, v)) <= EntriesNeed(es) + Need(key) + ValueNeed(v)
  {
    var e := Entry(key, v);
    if es == [] {
      assert [e][1..] == [];
    } else if es[0].key == key {
      assert Put(es, key, v) == [e] + es[1..];
      assert ([e] + es[1..])[1..] == es[1..];
    } else {
      PutNeeds(es[1..], key, v);
      assert Put(es, key, v)[1..] == Put(es[1..], key, v);
    }
  }

  lemma {:induction false} ParseUses(t: Schema, s: string)
    requires Parse(t, s).Ok?
    ensures var r := Parse(t, s).value; ValueNeed(r.value) + Credit(r.rest) <= Credit(s)
    decreases t, 1, 0
  {
    hide ReadNumber, ReadString, SkipSpace, ParseItems, ParsePair, ParseEntries, Need;
    SkippingUses(s);
    match t
    case Int(bits) => NumberUses(bits, s);
    case Str => StringUses(s);
    case Vec(elem) => ParseItemsUses(elem, Behind(s), []);
    case Pair(first, second) => ParsePairUses(first, second, Behind(s));
    case Map(elem) => ParseEntriesUses(elem, Behind(s), [], 0);
  }

  lemma {:induction false} ParsePairUses(first: Schema, second: Schema, s: string)
    requires ParsePair(first, second, s).Ok?
    ensures var r := ParsePair(first, second, s).value; ValueNeed(r.value) + Credit(r.rest) <= Credit(s)
    decreases Pair(first, second), 0, 0
  {
    hide NextItem, Parse, Credit;
    var s1 := NextItem(s, 0, ']').value.rest;
    ItemUses(s, 0, ']');
    ParseUses(first, s1);
    var s2 := Parse(first, s1).value.rest;
    ItemUses(s2, 1, ']');
    var s3 := NextItem(s2, 1, ']').value.rest;
    ParseUses(second, s3);
    ItemUses(Parse(second, s3).value.rest, 2, ']');
  }

  lemma {:induction false} ParseItemsUses(t: Schema, s: string, acc: seq<Value>)
    requires ParseItems(t, s, acc).Ok?
    ensures var r := ParseItems(t, s, acc).value; ItemsNeed(r.value) + Credit(r.rest) <= ItemsNeed(acc) + Credit(s)
    decreases t, 2, |s|
  {
    hide NextItem, Parse, Credit, ItemsNeed;
    ItemUses(s, |acc|, ']');
    if NextItem(s, |acc|, ']').value.Item? {
      var s1 := NextItem(s, |acc|, ']').value.rest;
      var v := Parse(t, s1).value;
      ParseUses(t, s1);
      ItemsNeedAdds(acc, v.value);
      ParseItemsUses(t, v.rest, acc + [v.value]);
    }
  }

  lemma {:induction false} ParseEntriesUses(t: Schema, s: string, acc: seq<Entry>, count: nat)
    requires ParseEntries(t, s, acc, count).Ok?
    ensures var r := ParseEntries(t, s, acc, count).value;
            EntriesNeed(r.value) + Credit(r.rest) <= EntriesNeed(acc) + Credit(s)
    decreases t, 2, |s|
  {
    hide NextItem, Parse, Credit, EntriesNeed, ReadKey, Put;
    ItemUses(s, count, '}');
    if NextItem(s, count, '}').value.Item? {
      var s1 := NextItem(s, count, '}').value.rest;
      var k := ReadKey(s1).value;
      var v := Parse(t, k.rest).value;
      KeyUses(s1);
      ParseUses(t, k.rest);
      PutNeeds(acc, k.value, v.value);
      ParseEntriesUses(t, v.rest, Put(acc, k.value, v.value), count + 1);
    }
  }

  // ---------------------------------------------------------------------------
  // Writing provides
  // ---------------------------------------------------------------------------

  lemma {:induction false} SpacesProvideNothing(n: nat)
    ensures Credit(Spaces(n)) == 0
  {
    if n > 0 {
      SpacesProvideNothing(n - 1);
      CreditAdds(" ", Spaces(n - 1));
    }
  }

  lemma SeparatorProvidesNothing(ml: seq<bool>)
    ensures Credit(Separator(ml)) == 0
  {
    SpacesProvideNothing(2 * |ml|);
    CreditAdds("\n", Spaces(2 * |ml|));
  }

  lemma {:induction false} DecimalProvidesNothing(n: nat)
    ensures Credit(Decimal(n)) == 0
  {
    if n >= 10 {
      DecimalProvidesNothing(n / 10);
      CreditAdds(Decimal(n / 10), [Digit(n % 10)]);
    }
  }

  /** The escapes of a string provide just what reading it takes. */
  lemma {:induction false} EscapeProvides(s: string)
    ensures Credit(Escape(s)) == Need(s)
  {
    if s != "" {
      EscapeProvides(s[1..]);
      CreditAdds(EscapeChar(s[0]), Escape(s[1..]));
      assert |EscapeChar(s[0])| == 2 ==> EscapeChar(s[0])[1..] == [EscapeChar(s[0])[1]];
    }
  }

  /** A key provides less than that by one for each of its unclean characters. */
  lemma {:induction false} KeyProvides(k: string)
    ensures Credit(k) + Unclean(k) == Need(k)
  {
    if k != "" { KeyProvides(k[1..]); }
  }

  lemma {:induction false} RenderProvides(t: Schema, v: Value, ml: seq<bool>)
    requires HasType(t, v)
    ensures Credit(Render(t, v, ml)) + UncleanKeys(v) == ValueNeed(v)
    decreases v, 2
  {
    hide Credit, Separator, Escape, Decimal, Need;
    match v
    case IntV(i) => NumberProvidesNothing(i);
    case StrV(s) =>
      EscapeProvides(s);
      Quotes(Escape(s));
    case VecV(items) =>
      var m := VecMultiLine(t.elem, |items|);
      ItemsProvide(t.elem, items, ml + [m], 0);
      Enclosed("[", RenderItems(t.elem, items, ml + [m], 0), ml, m, |items|, "]");
    case PairV(a, b) => PairProvides(t.first, t.second, a, b, ml);
    case MapV(entries) =>
      var m := |entries| > 1;
      EntriesProvide(t.elem, entries, ml + [m], 0);
      Enclosed("{", RenderEntries(t.elem, entries, ml + [m], 0), ml, m, |entries|, "}");
  }

  lemma NumberProvidesNothing(i: int)
    ensures Credit(Number(i)) == 0
  {
    hide Decimal;
    DecimalProvidesNothing(if i < 0 then -i else i);
    if i < 0 { CreditAdds("-", Decimal(-i)); }
  }

  lemma Quotes(s: string)
    ensures Credit("\"" + s + "\"") == Credit(s)
  {
    CreditAdds("\"" + s, "\"");
    CreditAdds("\"", s);
  }

  /** Brackets and white space provide nothing. */
  lemma Enclosed(open: string, body: string, ml: seq<bool>, m: bool, size: nat, close: string)
    requires (open == "[" || open == "{") && (close == "]" || close == "}")
    ensures Credit(open + body + Ending(ml, m, size) + close) == Credit(body)
  {
    hide Separator;
    SeparatorProvidesNothing(ml);
    CreditAdds(open + body + Ending(ml, m, size), close);
    CreditAdds(open + body, Ending(ml, m, size));
    CreditAdds(open, body);
  }

  /** A comma, a separator and a piece of text. */
  lemma Preceded(count: nat, ml: seq<bool>, body: string)
    ensures Credit(Comma(count) + Separator(ml) + body) == Credit(body)
  {
    hide Separator;
    SeparatorProvidesNothing(ml);
    CreditAdds(Comma(count) + Separator(ml), body);
    CreditAdds(Comma(count), Separator(ml));
    assert ", "[1..] == " ";
  }

  lemma {:induction false} PairProvides(first: Schema, second: Schema, a: Value, b: Value, ml: seq<bool>)
    requires HasType(first, a) && HasType(second, b)
    ensures Credit(Render(Pair(first, second), PairV(a, b), ml)) + UncleanKeys(PairV(a, b)) == ValueNeed(PairV(a, b))
    decreases PairV(a, b), 1
  {
    hide Credit, Separator, Comma, Ending, Render;
    var inner := ml + [true];
    RenderProvides(first, a, inner);
    RenderProvides(second, b, inner);
    var left := Comma(0) + Separator(inner) + Render(first, a, inner);
    var right := Comma(1) + Separator(inner) + Render(second, b, inner);
    Preceded(0, inner, Render(first, a, inner));
    Preceded(1, inner, Render(second, b, inner));
    CreditAdds(left, right);
    Enclosed("[", left + right, ml, true, 2, "]");
    PairRendered(first, second, a, b, ml);
    assert "[" + PairText(first, second, a, b, ml) == "[" + (left + right) + Ending(ml, true, 2) + "]";
  }

  lemma {:induction false} ItemsProvide(t: Schema, vs: seq<Value>, ml: seq<bool>, count: nat)
    requires AllHaveType(t, vs)
    ensures Credit(RenderItems(t, vs, ml, count)) + UncleanItems(vs) == ItemsNeed(vs)
    decreases vs, 0
  {
    if vs != [] {
      RenderProvides(t, vs[0], ml);
      ItemsProvide(t, vs[1..], ml, count + 1);
      hide Credit, Separator, Comma, Render;
      var one := Comma(count) + Separator(ml) + Render(t, vs[0], ml);
      Preceded(count, ml, Render(t, vs[0], ml));
      CreditAdds(one, RenderItems(t, vs[1..], ml, count + 1));
    }
  }

  lemma {:induction false} EntriesProvide(t: Schema, es: seq<Entry>, ml: seq<bool>, count: nat)
    requires EntriesHaveType(t, es)
    ensures Credit(RenderEntries(t, es, ml, count)) + UncleanEntries(es) == EntriesNeed(es)
    decreases es, 0
  {
    if es != [] {
      RenderProvides(t, es[0].value, ml);
      EntriesProvide(t, es[1..], ml, count + 1);
      KeyProvides(es[0].key);
      hide Credit, Separator, Comma, Render, Need, Unclean;
      var head, value := Comma(count) + Separator(ml) + "\"" + es[0].key + "\": ", Render(t, es[0].value, ml);
      HeadProvides(count, ml, es[0].key);
      CreditAdds(head, value);
      CreditAdds(head + value, RenderEntries(t, es[1..], ml, count + 1));
    }
  }

  lemma HeadProvides(count: nat, ml: seq<bool>, key: string)
    ensures Credit(Comma(count) + Separator(ml) + "\"" + key + "\": ") == Credit(key)
  {
    hide Separator, Comma;
    var start := Comma(count) + Separator(ml);
    Preceded(count, ml, "\"");
    CreditAdds(start + "\"", key);
    CreditAdds(start + "\"" + key, "\": ");
    assert "\": "[1..] == ": " && ": "[1..] == " ";
  }

  // ---------------------------------------------------------------------------
  // The condition
  // ---------------------------------------------------------------------------

  lemma {:induction false} CleanIffNoneUnclean(k: string)
    ensures CleanKey(k) <==> Unclean(k) == 0
  {
    if k != "" {
      CleanIffNoneUnclean(k[1..]);
      assert k == [k[0]] + k[1..];
    }
  }

  lemma {:induction false} KeysCleanIffNoneUnclean(v: Value)
    ensures KeysClean(v) <==> UncleanKeys(v) == 0
    decreases v, 1
  {
    match v
    case VecV(items) => ItemsCleanIff(items);
    case PairV(a, b) =>
      KeysCleanIffNoneUnclean(a);
      KeysCleanIffNoneUnclean(b);
    case MapV(entries) => EntriesCleanIff(entries);
    case IntV(_) =>
    case StrV(_) =>
  }

  lemma {:induction false} ItemsCleanIff(vs: seq<Value>)
    ensures AllKeysClean(vs) <==> UncleanItems(vs) == 0
    decreases vs, 0
  {
    if vs != [] {
      KeysCleanIffNoneUnclean(vs[0]);
      ItemsCleanIff(vs[1..]);
    }
  }

  lemma {:induction false} EntriesCleanIff(es: seq<Entry>)
    ensures EntryKeysClean(es) <==> UncleanEntries(es) == 0
    decreases es, 0
  {
    if es != [] {
      CleanIffNoneUnclean(es[0].key);
      KeysCleanIffNoneUnclean(es[0].value);
      EntriesCleanIff(es[1..]);
    }
  }

  /** The same value, maps being equal whatever the order in which they list their entries. */
  predicate Same(v: Value, w: Value)
    decreases v, 1
  {
    match (v, w)
    case (VecV(vs), VecV(ws)) => SameItems(vs, ws)
    case (PairV(a, b), PairV(c, d)) => Same(a, c) && Same(b, d)
    case (MapV(es), MapV(fs)) => SameEntries(es, fs)
    case _ => v == w
  }

  predicate SameItems(vs: seq<Value>, ws: seq<Value>)
    decreases vs, 0
  {
    if vs == [] then ws == [] else ws != [] && Same(vs[0], ws[0]) && SameItems(vs[1..], ws[1..])
  }

  predicate SameEntries(es: seq<Entry>, fs: seq<Entry>)
    decreases es, 0
  {
    if es == [] then fs == []
    else
      match Lookup(fs, es[0].key)
      case None => false
      case Some(j) => j < |fs| && Same(es[0].value, fs[j].value) && SameEntries(es[1..], fs[..j] + fs[j + 1..])
  }

  lemma {:induction false} SameIsReflexive(v: Value)
    ensures Same(v, v)
    decreases v, 1
  {
    match v
    case VecV(vs) => ItemsAreSame(vs);
    case PairV(a, b) =>
      SameIsReflexive(a);
      SameIsReflexive(b);
    case MapV(es) => EntriesAreSame(es);
    case IntV(_) =>
    case StrV(_) =>
  }

  lemma {:induction false} ItemsAreSame(vs: seq<Value>)
    ensures SameItems(vs, vs)
    decreases vs, 0
  {
    if vs != [] {
      SameIsReflexive(vs[0]);
      ItemsAreSame(vs[1..]);
    }
  }

  lemma {:induction false} EntriesAreSame(es: seq<Entry>)
    ensures SameEntries(es, es)
    decreases es, 0
  {
    if es != [] {
      SameIsReflexive(es[0].value);
      EntriesAreSame(es[1..]);
      assert es[..0] + es[1..] == es[1..];
    }
  }

  lemma {:induction false} SameNeeds(v: Value, w: Value)
    requires Same(v, w)
    ensures ValueNeed(v) == ValueNeed(w)
    decreases v, 1
  {
    match (v, w)
    case (VecV(vs), VecV(ws)) => SameItemsNeed(vs, ws);
    case (PairV(a, b), PairV(c, d)) =>
      SameNeeds(a, c);
      SameNeeds(b, d);
    case (MapV(es), MapV(fs)) => SameEntriesNeed(es, fs);
    case _ =>
  }

  lemma {:induction false} SameItemsNeed(vs: seq<Value>, ws: seq<Value>)
    requires SameItems(vs, ws)
    ensures ItemsNeed(vs) == ItemsNeed(ws)
    decreases vs, 0
  {
    if vs != [] {
      SameNeeds(vs[0], ws[0]);
      SameItemsNeed(vs[1..], ws[1..]);
    }
  }

  lemma {:induction false} SameEntriesNeed(es: seq<Entry>, fs: seq<Entry>)
    requires SameEntries(es, fs)
    ensures EntriesNeed(es) == EntriesNeed(fs)
    decreases es, 0
  {
    if es != [] {
      var j := Lookup(fs, es[0].key).value;
      LookupInside(fs, es[0].key);
      SameNeeds(es[0].value, fs[j].value);
      SameEntriesNeed(es[1..], fs[..j] + fs[j + 1..]);
      NeedWithout(fs, j);
    }
  }

  lemma {:induction false} NeedWithout(fs: seq<Entry>, j: nat)
    requires j < |fs|
    ensures EntriesNeed(fs) == Need(fs[j].key) + ValueNeed(fs[j].value) + EntriesNeed(fs[..j] + fs[j + 1..])
  {
    if j == 0 {
      assert fs[..0] + fs[1..] == fs[1..];
    } else {
      NeedWithout(fs[1..], j - 1);
      assert (fs[..j] + fs[j + 1..])[1..] == fs[1..][..j - 1] + fs[1..][j..];
      assert fs[1..][j..] == fs[j + 1..];
    }
  }

  /**
   Whatever the reader makes of a text with an unclean key anywhere in it, it is not a value that takes as
   many escapes as the one that was written, unless it has used up some of what follows the text. The
   order in which maps are listed plays no part.
   */
  lemma UncleanKeysAreLost(t: Schema, v: Value, ml: seq<bool>, rest: string)
    requires HasType(t, v) && !KeysClean(v)
    ensures var r := Parse(t, Render(t, v, ml) + rest);
            r.Ok? && Credit(r.value.rest) >= Credit(rest) ==> ValueNeed(r.value.value) < ValueNeed(v)
  {
    hide Parse, Render, Credit;
    var text := Render(t, v, ml) + rest;
    CreditAdds(Render(t, v, ml), rest);
    RenderProvides(t, v, ml);
    KeysCleanIffNoneUnclean(v);
    if Parse(t, text).Ok? { ParseUses(t, text); }
  }

  /**
   For every type, value and layout: the value comes back, and just its text is consumed, if and only if
   all its keys are clean.
   */
  lemma RoundTripsIffKeysClean(t: Schema, v: Value, ml: seq<bool>, rest: string)
    requires HasType(t, v) && (t.Int? ==> !StartsWithDigit(rest))
    ensures var r := Parse(t, Render(t, v, ml) + rest);
            r.Ok? && r.value.rest == rest && Same(r.value.value, v) <==> KeysClean(v)
    ensures Parse(t, Render(t, v, ml) + rest) == Ok(Parsed(v, rest)) <==> KeysClean(v)
  {
    hide Parse, Render, Same, Credit, ValueNeed;
    var r := Parse(t, Render(t, v, ml) + rest);
    SameIsReflexive(v);
    if KeysClean(v) {
      RoundTrip(t, v, ml, rest);
    } else {
      UncleanKeysAreLost(t, v, ml, rest);
      if r.Ok? && Same(r.value.value, v) { SameNeeds(r.value.value, v); }
    }
  }
}
