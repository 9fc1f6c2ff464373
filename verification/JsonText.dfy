module JsonText {
  /**
   What `JSONWriter` writes for a value of a given type, and what `JSONReader`
   reads for that type from a text. Characters stand for the bytes of the streams.
   */

  import opened Wrappers
  import WrappingArithmetic

  /** The C++ types the handlers are composed of. Integers are signed, of any width. */
  datatype Schema =
    | Int(bits: nat)
    | Str
    | Vec(elem: Schema)
    | Pair(first: Schema, second: Schema)
    | Map(elem: Schema)

  /** A map is listed in the order in which its iterator visits it. */
  datatype Value =
    | IntV(i: int)
    | StrV(s: string)
    | VecV(items: seq<Value>)
    | PairV(a: Value, b: Value)
    | MapV(entries: seq<Entry>)

  datatype Entry = Entry(key: string, value: Value)

  predicate Fits(bits: nat, i: int) {
    bits > 0 && -WrappingArithmetic.Pow2(bits - 1) <= i < WrappingArithmetic.Pow2(bits - 1)
  }

  predicate HasType(t: Schema, v: Value)
    decreases v, 1
  {
    match (t, v)
    case (Int(bits), IntV(i)) => Fits(bits, i)
    case (Str, StrV(_)) => true
    case (Vec(elem), VecV(items)) => AllHaveType(elem, items)
    case (Pair(first, second), PairV(a, b)) => HasType(first, a) && HasType(second, b)
    case (Map(elem), MapV(entries)) => EntriesHaveType(elem, entries)
    case _ => false
  }

  predicate AllHaveType(t: Schema, vs: seq<Value>)
    decreases vs, 0
  {
    vs == [] || (HasType(t, vs[0]) && AllHaveType(t, vs[1..]))
  }

  /** The keys of a map are distinct. */
  predicate EntriesHaveType(t: Schema, es: seq<Entry>)
    decreases es, 0
  {
    es == [] || (HasType(t, es[0].value) && EntriesHaveType(t, es[1..]) && Lookup(es[1..], es[0].key).None?)
  }

  function Lookup(es: seq<Entry>, key: string): Option<nat> {
    if es == [] then None
    else if es[0].key == key then Some(0)
    else match Lookup(es[1..], key)
         case None => None
         case Some(i) => Some(i + 1)
  }

  // ---------------------------------------------------------------------------
  // Writing
  // ---------------------------------------------------------------------------

  function Digit(d: nat): char
    requires d < 10
  {
    '0' + d as char
  }

  function Decimal(n: nat): string {
    if n < 10 then [Digit(n)] else Decimal(n / 10) + [Digit(n % 10)]
  }

  function Number(i: int): string { if i < 0 then "-" + Decimal(-i) else Decimal(i) }

  function EscapeChar(c: char): string {
    if c == '\r' then "\\r"
    else if c == '\n' then "\\n"
    else if c == '\\' then "\\\\"
    else if c == '\t' then "\\t"
    else if c == '\"' then "\\\""
    else [c]
  }

  function Escape(s: string): string {
    if s == "" then "" else EscapeChar(s[0]) + Escape(s[1..])
  }

  function Quoted(s: string): string { "\"" + Escape(s) + "\"" }

  function Spaces(n: nat): string { if n == 0 then "" else " " + Spaces(n - 1) }

  /** `WriteSeperator` inside the scopes `ml`, of which the innermost is last. */
  function Separator(ml: seq<bool>): string {
    if ml == [] || ml[|ml| - 1] then "\n" + Spaces(2 * |ml|) else ""
  }

  /** A vector of plain values stays on one line up to ten elements. */
  function VecMultiLine(elem: Schema, size: nat): bool { size > 10 || !elem.Int? }

  function Ending(ml: seq<bool>, multiLine: bool, size: nat): string {
    if multiLine && size != 0 then Separator(ml) else ""
  }

  function Comma(count: nat): string { if count != 0 then ", " else "" }

  /** The text of `v` written inside the scopes `ml`. */
  function Render(t: Schema, v: Value, ml: seq<bool>): string
    requires HasType(t, v)
    decreases v, 1
  {
    match v
    case IntV(i) => Number(i)
    case StrV(s) => Quoted(s)
    case VecV(items) =>
      var m := VecMultiLine(t.elem, |items|);
      "[" + RenderItems(t.elem, items, ml + [m], 0) + Ending(ml, m, |items|) + "]"
    case PairV(a, b) =>
      var inner := ml + [true];
      "[" + Comma(0) + Separator(inner) + Render(t.first, a, inner)
      + Comma(1) + Separator(inner) + Render(t.second, b, inner) + Ending(ml, true, 2) + "]"
    case MapV(entries) =>
      var m := |entries| > 1;
      "{" + RenderEntries(t.elem, entries, ml + [m], 0) + Ending(ml, m, |entries|) + "}"
  }

  /** The items of an array from the one on that `count` others precede. */
  function RenderItems(t: Schema, vs: seq<Value>, ml: seq<bool>, count: nat): string
    requires AllHaveType(t, vs)
    decreases vs, 0
  {
    if vs == [] then ""
    else Comma(count) + Separator(ml) + Render(t, vs[0], ml) + RenderItems(t, vs[1..], ml, count + 1)
  }

  /** Keys are written as they are, without escapes. */
  function RenderEntries(t: Schema, es: seq<Entry>, ml: seq<bool>, count: nat): string
    requires EntriesHaveType(t, es)
    decreases es, 0
  {
    if es == [] then ""
    else
      Comma(count) + Separator(ml) + "\"" + es[0].key + "\": " + Render(t, es[0].value, ml)
      + RenderEntries(t, es[1..], ml, count + 1)
  }

  // ---------------------------------------------------------------------------
  // Reading
  // ---------------------------------------------------------------------------

  datatype Error = ExpectQuote | EndOfLine | UnknownEscape | ExpectNumber | ExpectBracket | ExpectBrace
                 | ExpectComma | ExpectColon | ExpectPair

  /** A value and the text after it. */
  datatype Parsed<T> = Parsed(value: T, rest: string)

  predicate IsSpace(c: char) {
    c == ' ' || c == '\n' || c == '\t' || c == '\r' || c == '\U{B}' || c == '\U{C}'
  }

  function SkipSpace(s: string): (r: string)
    ensures |r| <= |s|
    ensures r != "" ==> !IsSpace(r[0])
  {
    if s != "" && IsSpace(s[0]) then SkipSpace(s[1..]) else s
  }

  /** `NextNonSpace` returns `c` and leaves the text behind it. */
  predicate NextIs(s: string, c: char) { var r := SkipSpace(s); r != "" && r[0] == c }

  function Behind(s: string): (r: string)
    requires SkipSpace(s) != ""
    ensures |r| < |s|
  {
    SkipSpace(s)[1..]
  }

  function Unescape(c: char): Option<char> {
    if c == 'r' then Some('\r')
    else if c == 'n' then Some('\n')
    else if c == '\\' then Some('\\')
    else if c == 't' then Some('\t')
    else if c == '\"' then Some('\"')
    else None
  }

  /** The loop of `ReadString`, after the opening quote. */
  function ReadChars(s: string): (r: Result<Parsed<string>, Error>)
    ensures r.Ok? ==> |r.value.rest| < |s|
  {
    if s == "" then Err(EndOfLine)
    else if s[0] == '\\' then
      if |s| == 1 || Unescape(s[1]).None? then Err(UnknownEscape)
      else match ReadChars(s[2..])
           case Err(e) => Err(e)
           case Ok(r) => Ok(Parsed([Unescape(s[1]).value] + r.value, r.rest))
    else if s[0] == '\"' then Ok(Parsed("", s[1..]))
    else if s[0] == '\r' || s[0] == '\n' then Err(EndOfLine)
    else match ReadChars(s[1..])
         case Err(e) => Err(e)
         case Ok(r) => Ok(Parsed([s[0]] + r.value, r.rest))
  }

  function ReadString(s: string): (r: Result<Parsed<string>, Error>)
    ensures r.Ok? ==> |r.value.rest| < |s|
  {
    if NextIs(s, '\"') then ReadChars(Behind(s)) else Err(ExpectQuote)
  }

  predicate IsDigit(c: char) { '0' <= c <= '9' }

  function DigitValue(c: char): nat
    requires IsDigit(c)
  {
    (c as int - '0' as int) as nat
  }

  /** The digits at the start of `s` appended to the number `n`. */
  function ReadDigits(s: string, n: nat): (r: Parsed<nat>)
    ensures |r.rest| <= |s|
  {
    if s != "" && IsDigit(s[0]) then ReadDigits(s[1..], 10 * n + DigitValue(s[0])) else Parsed(n, s)
  }

  /** `stream >> value`: optional sign, digits, and a check of the range. */
  function ReadNumber(bits: nat, s: string): (r: Result<Parsed<int>, Error>)
    ensures r.Ok? ==> |r.value.rest| < |s|
  {
    var u := SkipSpace(s);
    var signed := u != "" && (u[0] == '-' || u[0] == '+');
    var d := if signed then u[1..] else u;
    if d == "" || !IsDigit(d[0]) then Err(ExpectNumber)
    else
      var n := ReadDigits(d[1..], DigitValue(d[0]));
      var size: int := n.value;
      var i := if signed && u[0] == '-' then -size else size;
      if Fits(bits, i) then Ok(Parsed(i, n.rest)) else Err(ExpectNumber)
  }

  /** What `NextArrayItem` or `NextObjectItem` finds: an item, or the end of the scope. */
  datatype Item = Item(rest: string) | End(rest: string)

  function NextItem(s: string, count: nat, close: char): (r: Result<Item, Error>)
    ensures r.Ok? ==> |r.value.rest| <= |s|
    ensures r.Ok? && count != 0 && r.value.Item? ==> |r.value.rest| < |s|
  {
    var u := SkipSpace(s);
    if count != 0 then
      if u == "" then Ok(End(""))
      else if u[0] == close then Ok(End(u[1..]))
      else if u[0] == ',' then Ok(Item(u[1..]))
      else Err(ExpectComma)
    else if u != "" && u[0] == close then Ok(End(u[1..]))
    else Ok(Item(u))
  }

  /** Reading a value of type `t`. */
  function Parse(t: Schema, s: string): (r: Result<Parsed<Value>, Error>)
    ensures r.Ok? ==> |r.value.rest| < |s|
    decreases t, 1, 0
  {
    match t
    case Int(bits) =>
      (match ReadNumber(bits, s)
       case Err(e) => Err(e)
       case Ok(r) => Ok(Parsed(IntV(r.value), r.rest)))
    case Str =>
      (match ReadString(s)
       case Err(e) => Err(e)
       case Ok(r) => Ok(Parsed(StrV(r.value), r.rest)))
    case Vec(elem) =>
      if !NextIs(s, '[') then Err(ExpectBracket)
      else (match ParseItems(elem, Behind(s), [])
            case Err(e) => Err(e)
            case Ok(r) => Ok(Parsed(VecV(r.value), r.rest)))
    case Pair(first, second) =>
      if !NextIs(s, '[') then Err(ExpectBracket) else ParsePair(first, second, Behind(s))
    case Map(elem) =>
      if !NextIs(s, '{') then Err(ExpectBrace)
      else (match ParseEntries(elem, Behind(s), [], 0)
            case Err(e) => Err(e)
            case Ok(r) => Ok(Parsed(MapV(r.value), r.rest)))
  }

  function ParsePair(first: Schema, second: Schema, s: string): (r: Result<Parsed<Value>, Error>)
    ensures r.Ok? ==> |r.value.rest| <= |s|
    decreases Pair(first, second), 0, 0
  {
    match NextItem(s, 0, ']')
    case Err(e) => Err(e)
    case Ok(End(_)) => Err(ExpectPair)
    case Ok(Item(s1)) =>
      match Parse(first, s1)
      case Err(e) => Err(e)
      case Ok(a) =>
        match NextItem(a.rest, 1, ']')
        case Err(e) => Err(e)
        case Ok(End(_)) => Err(ExpectPair)
        case Ok(Item(s2)) =>
          match Parse(second, s2)
          case Err(e) => Err(e)
          case Ok(b) =>
            match NextItem(b.rest, 2, ']')
            case Err(e) => Err(e)
            case Ok(Item(_)) => Err(ExpectPair)
            case Ok(End(rest)) => Ok(Parsed(PairV(a.value, b.value), rest))
  }

  /** The array items behind those in `acc`. */
  function ParseItems(t: Schema, s: string, acc: seq<Value>): (r: Result<Parsed<seq<Value>>, Error>)
    ensures r.Ok? ==> |r.value.rest| <= |s|
    decreases t, 2, |s|
  {
    match NextItem(s, |acc|, ']')
    case Err(e) => Err(e)
    case Ok(End(rest)) => Ok(Parsed(acc, rest))
    case Ok(Item(s1)) =>
      match Parse(t, s1)
      case Err(e) => Err(e)
      case Ok(v) => ParseItems(t, v.rest, acc + [v.value])
  }

  /** `(*map)[key] = value`. */
  function Put(es: seq<Entry>, key: string, v: Value): seq<Entry> {
    match Lookup(es, key)
    case None => es + [Entry(key, v)]
    case Some(i) => if i < |es| then es[i := Entry(key, v)] else es
  }

  /** A key and the text behind its colon. */
  function ReadKey(s: string): (r: Result<Parsed<string>, Error>)
    ensures r.Ok? ==> |r.value.rest| < |s|
  {
    match ReadString(s)
    case Err(e) => Err(e)
    case Ok(k) => if NextIs(k.rest, ':') then Ok(Parsed(k.value, Behind(k.rest))) else Err(ExpectColon)
  }

  /** The map entries behind `count` others, which made up `acc`. */
  function ParseEntries(t: Schema, s: string, acc: seq<Entry>, count: nat): (r: Result<Parsed<seq<Entry>>, Error>)
    ensures r.Ok? ==> |r.value.rest| <= |s|
    decreases t, 2, |s|
  {
    match NextItem(s, count, '}')
    case Err(e) => Err(e)
    case Ok(End(rest)) => Ok(Parsed(acc, rest))
    case Ok(Item(s1)) =>
      match ReadKey(s1)
      case Err(e) => Err(e)
      case Ok(k) =>
        match Parse(t, k.rest)
        case Err(e) => Err(e)
        case Ok(v) => ParseEntries(t, v.rest, Put(acc, k.value, v.value), count + 1)
  }
}
