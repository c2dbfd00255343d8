/** The canonical text of a JSON value: sorted keys, no insignificant whitespace, non-ASCII
    characters kept (earned_autonomy/crypto/canonical.py), and what a parser makes of it.
    String escapes are those of section 7 of RFC 8259 as json.dumps chooses them. */
module Canonical {
  import opened Options
  import opened JsonValues

  // ---------- rendering ----------

  function HexDigit(n: nat): char
    requires n < 16
  {
    if n < 10 then '0' + n as char else 'a' + (n - 10) as char
  }

  function Escape(c: char): string {
    if c == '"' then "\\\""
    else if c == '\\' then "\\\\"
    else if c == '\n' then "\\n"
    else if c == '\r' then "\\r"
    else if c == '\t' then "\\t"
    else if c as int == 12 then "\\f"
    else if c as int == 8 then "\\b"
    else if c < ' ' then "\\u00" + [HexDigit(c as int / 16), HexDigit(c as int % 16)]
    else [c]
  }

  function EscapeAll(s: string): string {
    if s == [] then [] else Escape(s[0]) + EscapeAll(s[1..])
  }

  function Quote(s: string): string {
    "\"" + EscapeAll(s) + "\""
  }

  function Digit(n: nat): char
    requires n < 10
  {
    '0' + n as char
  }

  function Digits(n: nat): string {
    if n < 10 then [Digit(n)] else Digits(n / 10) + [Digit(n % 10)]
  }

  function RenderInt(i: int): string {
    if i < 0 then "-" + Digits(-i) else Digits(i)
  }

  /** The value as text, objects in the order they are in. */
  function Render(v: Json): string
    decreases v, 1
  {
    match v
    case Null => "null"
    case Bool(b) => if b then "true" else "false"
    case Num(i) => RenderInt(i)
    case Str(s) => Quote(s)
    case Arr(items) => "[" + RenderItems(items) + "]"
    case Obj(fields) => "{" + RenderFields(fields) + "}"
  }

  function RenderItems(items: seq<Json>): string
    decreases items, 0
  {
    if items == [] then ""
    else if |items| == 1 then Render(items[0])
    else Render(items[0]) + "," + RenderItems(items[1..])
  }

  function RenderField(f: Field): string
    decreases f, 2
  {
    Quote(f.key) + ":" + Render(f.value)
  }

  function RenderFields(fields: seq<Field>): string
    decreases fields, 0
  {
    if fields == [] then ""
    else if |fields| == 1 then RenderField(fields[0])
    else RenderField(fields[0]) + "," + RenderFields(fields[1..])
  }

  // ---------- key order ----------

  function InsertField(f: Field, sorted: seq<Field>): seq<Field> {
    if sorted == [] || StrLess(f.key, sorted[0].key) then [f] + sorted
    else [sorted[0]] + InsertField(f, sorted[1..])
  }

  function SortFields(fields: seq<Field>): seq<Field> {
    if fields == [] then [] else InsertField(fields[0], SortFields(fields[1..]))
  }

  /** Sorts the keys of every object inside. */
  function Normalize(v: Json): Json
    decreases v, 1
  {
    match v
    case Arr(items) => Arr(NormalizeItems(items))
    case Obj(fields) => Obj(SortFields(NormalizeFields(fields)))
    case _ => v
  }

  function NormalizeItems(items: seq<Json>): (r: seq<Json>)
    ensures |r| == |items|
    decreases items, 0
  {
    if items == [] then [] else [Normalize(items[0])] + NormalizeItems(items[1..])
  }

  function NormalizeFields(fields: seq<Field>): (r: seq<Field>)
    ensures |r| == |fields|
    decreases fields, 0
  {
    if fields == [] then []
    else [Field(fields[0].key, Normalize(fields[0].value))] + NormalizeFields(fields[1..])
  }

  /** The canonical text every hash and signature is computed over. */
  function CanonicalText(v: Json): string {
    Render(Normalize(v))
  }

  // ---------- parsing ----------

  datatype Parsed<T> = Bad | Good(value: T, rest: string)

  function HexValue(c: char): Option<nat> {
    if '0' <= c <= '9' then Some((c - '0') as int)
    else if 'a' <= c <= 'f' then Some((c - 'a') as int + 10)
    else None
  }

  function HexPair(a: char, b: char): Option<char> {
    match (HexValue(a), HexValue(b))
    case (Some(x), Some(y)) => if x < 16 && y < 16 then Some((x * 16 + y) as char) else None
    case _ => None
  }

  /** The characters up to the closing quote, escapes resolved; control characters must be escaped. */
  function ParseChars(s: string): (r: Parsed<string>)
    ensures r.Good? ==> |r.rest| < |s|
  {
    if s == [] then Bad
    else if s[0] == '"' then Good([], s[1..])
    else if s[0] < ' ' then Bad
    else if s[0] != '\\' then Prepend(s[0], ParseChars(s[1..]))
    else if |s| < 2 then Bad
    else if s[1] == '"' then Prepend('"', ParseChars(s[2..]))
    else if s[1] == '\\' then Prepend('\\', ParseChars(s[2..]))
    else if s[1] == 'n' then Prepend('\n', ParseChars(s[2..]))
    else if s[1] == 'r' then Prepend('\r', ParseChars(s[2..]))
    else if s[1] == 't' then Prepend('\t', ParseChars(s[2..]))
    else if s[1] == 'f' then Prepend(12 as char, ParseChars(s[2..]))
    else if s[1] == 'b' then Prepend(8 as char, ParseChars(s[2..]))
    else if s[1] != 'u' || |s| < 6 || s[2] != '0' || s[3] != '0' then Bad
    else match HexPair(s[4], s[5])
      case None => Bad
      case Some(c) => Prepend(c, ParseChars(s[6..]))
  }

  function Prepend(c: char, p: Parsed<string>): Parsed<string> {
    match p case Bad => Bad case Good(t, rest) => Good([c] + t, rest)
  }

  predicate IsDigit(c: char) {
    '0' <= c <= '9'
  }

  function DigitRun(s: string): (k: nat)
    ensures k <= |s|
    ensures forall j :: 0 <= j < k ==> IsDigit(s[j])
  {
    if s == [] || !IsDigit(s[0]) then 0 else 1 + DigitRun(s[1..])
  }

  function NatOf(s: string): nat
    requires forall j :: 0 <= j < |s| ==> IsDigit(s[j])
  {
    if s == [] then 0 else
      var last := s[|s| - 1];
      assert IsDigit(last);
      NatOf(s[..|s| - 1]) * 10 + (last - '0') as int
  }

  /** Digits without leading zeros. */
  function ParseNat(s: string): (r: Parsed<nat>)
    ensures r.Good? ==> |r.rest| < |s|
  {
    var k := DigitRun(s);
    if k == 0 || (k > 1 && s[0] == '0') then Bad else Good(NatOf(s[..k]), s[k..])
  }

  function ParseValue(s: string): (r: Parsed<Json>)
    ensures r.Good? ==> |r.rest| < |s|
    decreases |s|, 1
  {
    if s == [] then Bad
    else if IsDigit(s[0]) then
      match ParseNat(s) { case Bad => Bad case Good(n, rest) => Good(Num(n), rest) }
    else if s[0] == '-' then
      match ParseNat(s[1..]) { case Bad => Bad case Good(n, rest) => Good(Num(-(n as int)), rest) }
    else if s[0] == '"' then
      match ParseChars(s[1..]) { case Bad => Bad case Good(t, rest) => Good(Str(t), rest) }
    else if s[0] == '[' then
      if |s| > 1 && s[1] == ']' then Good(Arr([]), s[2..])
      else match ParseItems(s[1..]) { case Bad => Bad case Good(items, rest) => Good(Arr(items), rest) }
    else if s[0] == '{' then
      if |s| > 1 && s[1] == '}' then Good(Obj([]), s[2..])
      else match ParseFields(s[1..]) { case Bad => Bad case Good(fields, rest) => Good(Obj(fields), rest) }
    else ParseWord(s)
  }

  function ParseWord(s: string): (r: Parsed<Json>)
    ensures r.Good? ==> |r.rest| < |s|
  {
    if "null" <= s then Good(Null, s[4..])
    else if "true" <= s then Good(Bool(true), s[4..])
    else if "false" <= s then Good(Bool(false), s[5..])
    else Bad
  }

  function ParseItems(s: string): (r: Parsed<seq<Json>>)
    ensures r.Good? ==> |r.rest| < |s|
    decreases |s|, 2
  {
    match ParseValue(s)
    case Bad => Bad
    case Good(v, rest) =>
      if rest == [] then Bad
      else if rest[0] == ']' then Good([v], rest[1..])
      else if rest[0] != ',' then Bad
      else match ParseItems(rest[1..]) { case Bad => Bad case Good(vs, rest') => Good([v] + vs, rest') }
  }

  function ParseFields(s: string): (r: Parsed<seq<Field>>)
    ensures r.Good? ==> |r.rest| < |s|
    decreases |s|, 2
  {
    match ParseField(s)
    case Bad => Bad
    case Good(f, rest) =>
      if rest == [] then Bad
      else if rest[0] == '}' then Good([f], rest[1..])
      else if rest[0] != ',' then Bad
      else match ParseFields(rest[1..]) { case Bad => Bad case Good(fs, rest') => Good([f] + fs, rest') }
  }

  function ParseField(s: string): (r: Parsed<Field>)
    ensures r.Good? ==> |r.rest| < |s|
    decreases |s|, 1
  {
    if s == [] || s[0] != '"' then Bad
    else match ParseChars(s[1..])
      case Bad => Bad
      case Good(key, rest) =>
        if rest == [] || rest[0] != ':' then Bad
        else match ParseValue(rest[1..]) { case Bad => Bad case Good(v, rest') => Good(Field(key, v), rest') }
  }

  // ---------- the parser undoes the renderer ----------

  lemma HexPairInverts(n: nat)
    requires n < 32
    ensures HexPair(HexDigit(n / 16), HexDigit(n % 16)) == Some(n as char)
  {}

  /** The character a one-letter escape stands for. */
  function Named(letter: char): Option<char> {
    if letter == '"' || letter == '\\' then Some(letter)
    else if letter == 'n' then Some('\n')
    else if letter == 'r' then Some('\r')
    else if letter == 't' then Some('\t')
    else if letter == 'f' then Some(12 as char)
    else if letter == 'b' then Some(8 as char)
    else None
  }

  lemma NamedEscapeParses(letter: char, rest: string)
    requires Named(letter).Some?
    ensures ParseChars(['\\', letter] + rest) == Prepend(Named(letter).value, ParseChars(rest))
  {
    var s := ['\\', letter] + rest;
    assert s[0] == '\\' && s[1] == letter && s[2..] == rest;
  }

  lemma ControlEscapeParses(a: char, b: char, rest: string)
    requires HexPair(a, b).Some?
    ensures ParseChars("\\u00" + [a, b] + rest) == Prepend(HexPair(a, b).value, ParseChars(rest))
  {
    var s := "\\u00" + [a, b] + rest;
    assert s[0] == '\\' && s[1] == 'u' && s[2] == '0' && s[3] == '0' && s[4] == a && s[5] == b && s[6..] == rest;
  }

  lemma PlainParses(c: char, rest: string)
    requires c != '"' && c != '\\' && c >= ' '
    ensures ParseChars([c] + rest) == Prepend(c, ParseChars(rest))
  {
    var s := [c] + rest;
    assert s[0] == c && s[1..] == rest;
  }

  predicate HasName(c: char) {
    c in ['"', '\\', '\n', '\r', '\t', 12 as char, 8 as char]
  }

  lemma EscapeShape(c: char)
    ensures HasName(c) ==> |Escape(c)| == 2 && Escape(c)[0] == '\\' && Named(Escape(c)[1]) == Some(c)
    ensures !HasName(c) && c >= ' ' ==> Escape(c) == [c]
    ensures !HasName(c) && c < ' ' ==> Escape(c) == "\\u00" + [HexDigit(c as int / 16), HexDigit(c as int % 16)]
  {}

  lemma EscapeParses(c: char, rest: string)
    ensures ParseChars(Escape(c) + rest) == Prepend(c, ParseChars(rest))
  {
    EscapeShape(c);
    if HasName(c) {
      assert Escape(c) == ['\\', Escape(c)[1]];
      NamedEscapeParses(Escape(c)[1], rest);
    } else if c < ' ' {
      HexPairInverts(c as int);
      ControlEscapeParses(HexDigit(c as int / 16), HexDigit(c as int % 16), rest);
    } else {
      PlainParses(c, rest);
    }
  }

  lemma {:induction false} CharsRoundTrip(s: string, rest: string)
    ensures ParseChars(EscapeAll(s) + "\"" + rest) == Good(s, rest)
  {
    if s == [] {
      assert EscapeAll(s) + "\"" + rest == "\"" + rest;
      assert ("\"" + rest)[1..] == rest;
    } else {
      CharsRoundTrip(s[1..], rest);
      EscapeParses(s[0], EscapeAll(s[1..]) + "\"" + rest);
      assert EscapeAll(s) + "\"" + rest == Escape(s[0]) + (EscapeAll(s[1..]) + "\"" + rest);
      assert [s[0]] + s[1..] == s;
    }
  }

  /** The three ways to write one character of a string. */
  predicate Writes(unit: string, c: char) {
    || (|unit| == 1 && unit[0] == c && c >= ' ' && c != '"' && c != '\\')
    || (|unit| == 2 && unit[0] == '\\' && Named(unit[1]) == Some(c))
    || (|unit| == 6 && unit[0] == '\\' && unit[1] == 'u' && unit[2] == '0' && unit[3] == '0' && HexPair(unit[4], unit[5]) == Some(c))
  }

  lemma OneParsed(x: char, p: Parsed<string>, c: char)
    requires Prepend(x, p) == Good([c], "")
    ensures x == c && p == Good([], "")
  {
    assert p.Good? && [x] + p.value == [c];
    assert ([x] + p.value)[0] == x && |p.value| == 0;
  }

  lemma PlainHead(q: string)
    requires q != [] && q[0] != '\\' && q[0] != '"' && ParseChars(q).Good?
    ensures q[0] >= ' ' && ParseChars(q) == Prepend(q[0], ParseChars(q[1..]))
  {}

  lemma NamedHead(q: string)
    requires |q| > 1 && q[0] == '\\' && Named(q[1]).Some?
    ensures ParseChars(q) == Prepend(Named(q[1]).value, ParseChars(q[2..]))
  {}

  lemma NumberedHead(q: string)
    requires q != [] && q[0] == '\\' && (|q| > 1 ==> Named(q[1]).None?) && ParseChars(q).Good?
    ensures |q| >= 6 && q[1] == 'u' && q[2] == '0' && q[3] == '0' && HexPair(q[4], q[5]).Some?
    ensures ParseChars(q) == Prepend(HexPair(q[4], q[5]).value, ParseChars(q[6..]))
  {}

  lemma PrependsSomething(x: char, p: Parsed<string>)
    ensures Prepend(x, p) != Good([], "")
  {
    if p.Good? { assert |[x] + p.value| > 0; }
  }

  lemma SomethingParsed(q: string)
    requires q == [] || q[0] != '"'
    ensures ParseChars(q) != Good([], "")
  {
    if q != [] && ParseChars(q).Good? {
      if q[0] != '\\' {
        PlainHead(q);
        PrependsSomething(q[0], ParseChars(q[1..]));
      } else if |q| > 1 && Named(q[1]).Some? {
        NamedHead(q);
        PrependsSomething(Named(q[1]).value, ParseChars(q[2..]));
      } else {
        NumberedHead(q);
        PrependsSomething(HexPair(q[4], q[5]).value, ParseChars(q[6..]));
      }
    }
  }

  lemma NothingParsed(q: string)
    requires ParseChars(q) == Good([], "")
    ensures |q| == 1 && q[0] == '"'
  {
    if q == [] || q[0] != '"' { SomethingParsed(q); }
  }

  /** The text of a one-character string: one way to write it, and the closing quote. */
  lemma OneUnit(q: string, c: char)
    requires ParseChars(q) == Good([c], "")
    ensures |q| > 1 && Writes(q[..|q| - 1], c)
  {
    if q[0] != '\\' {
      PlainHead(q);
      OneParsed(q[0], ParseChars(q[1..]), c);
      NothingParsed(q[1..]);
    } else if |q| > 1 && Named(q[1]).Some? {
      NamedHead(q);
      OneParsed(Named(q[1]).value, ParseChars(q[2..]), c);
      NothingParsed(q[2..]);
    } else {
      NumberedHead(q);
      OneParsed(HexPair(q[4], q[5]).value, ParseChars(q[6..]), c);
      NothingParsed(q[6..]);
    }
  }

  lemma HexIsUnique(c: char, a: char, b: char)
    requires HexPair(a, b) == Some(c)
    ensures c as int < 256 && a == HexDigit(c as int / 16) && b == HexDigit(c as int % 16)
  {}

  lemma NamedIsUnique(a: char, b: char)
    requires Named(a).Some? && Named(a) == Named(b)
    ensures a == b
  {}

  lemma NamedHasName(a: char)
    requires Named(a).Some?
    ensures HasName(Named(a).value)
  {}

  /** Escapes are the shortest there are, and the only ones of their length: whatever else a parser reads
      as the one character `c` is longer. */
  lemma EscapeIsShortest(c: char, s: string)
    requires ParseChars(s + "\"") == Good([c], "")
    ensures s == Escape(c) || |s| > |Escape(c)|
  {
    OneUnit(s + "\"", c);
    assert (s + "\"")[..|s|] == s;
    EscapeShape(c);
    UnitIsNoShorter(s, c);
  }

  lemma UnitIsNoShorter(s: string, c: char)
    requires Writes(s, c)
    ensures s == Escape(c) || |s| > |Escape(c)|
  {
    EscapeShape(c);
    if |s| == 1 {
      assert s == [c];
    } else if |s| == 2 {
      NamedHasName(s[1]);
      NamedIsUnique(s[1], Escape(c)[1]);
      assert s == [s[0], s[1]] && Escape(c) == [s[0], s[1]];
    } else {
      HexIsUnique(c, s[4], s[5]);
      assert s == "\\u00" + [s[4], s[5]];
    }
  }

  /** The next character cannot be read as one more digit. */
  predicate Stops(rest: string) {
    rest == [] || !IsDigit(rest[0])
  }

  lemma {:induction false} DigitsInvert(n: nat)
    ensures |Digits(n)| > 0
    ensures forall j :: 0 <= j < |Digits(n)| ==> IsDigit(Digits(n)[j])
    ensures NatOf(Digits(n)) == n
    ensures n > 0 ==> Digits(n)[0] != '0'
    ensures |Digits(n)| > 1 ==> n > 0
  {
    if n >= 10 {
      DigitsInvert(n / 10);
      var d := Digits(n);
      assert d[..|d| - 1] == Digits(n / 10);
    } else {
      assert Digits(n)[..0] == [];
    }
  }

  lemma {:induction false} RunOfDigits(d: string, rest: string)
    requires forall j :: 0 <= j < |d| ==> IsDigit(d[j])
    requires Stops(rest)
    ensures DigitRun(d + rest) == |d|
  {
    if d == [] {
      assert d + rest == rest;
    } else {
      assert (d + rest)[1..] == d[1..] + rest;
      RunOfDigits(d[1..], rest);
    }
  }

  lemma NatRoundTrip(n: nat, rest: string)
    requires Stops(rest)
    ensures ParseNat(Digits(n) + rest) == Good(n, rest)
  {
    DigitsInvert(n);
    var d := Digits(n);
    RunOfDigits(d, rest);
    assert (d + rest)[..|d|] == d && (d + rest)[|d|..] == rest;
  }

  lemma NumberDispatch(d: string, n: nat, rest: string)
    requires d != [] && IsDigit(d[0]) && ParseNat(d) == Good(n, rest)
    ensures ParseValue(d) == Good(Num(n), rest)
    ensures ParseValue("-" + d) == Good(Num(-(n as int)), rest)
  {
    assert ("-" + d)[1..] == d;
  }

  lemma PositiveRoundTrip(n: nat, rest: string)
    requires Stops(rest)
    ensures ParseValue(Digits(n) + rest) == Good(Num(n), rest)
    ensures ParseValue("-" + (Digits(n) + rest)) == Good(Num(-(n as int)), rest)
  {
    NatRoundTrip(n, rest);
    DigitsInvert(n);
    NumberDispatch(Digits(n) + rest, n, rest);
  }

  lemma RenderedInt(i: int, rest: string)
    ensures i < 0 ==> RenderInt(i) + rest == "-" + (Digits(-i) + rest)
    ensures i >= 0 ==> RenderInt(i) + rest == Digits(i) + rest
  {}

  lemma IntRoundTrip(i: int, rest: string)
    requires Stops(rest)
    ensures ParseValue(RenderInt(i) + rest) == Good(Num(i), rest)
  {
    RenderedInt(i, rest);
    PositiveRoundTrip(if i < 0 then -i else i, rest);
  }

  lemma ListDispatch(t: string, items: seq<Json>, rest: string)
    requires t != [] && t[0] != ']' && ParseItems(t) == Good(items, rest)
    ensures ParseValue("[" + t) == Good(Arr(items), rest)
  {
    var s := "[" + t;
    assert s[0] == '[' && s[1..] == t;
    assert s[1] == t[0];
  }

  lemma ObjectDispatch(t: string, fields: seq<Field>, rest: string)
    requires t != [] && t[0] != '}' && ParseFields(t) == Good(fields, rest)
    ensures ParseValue("{" + t) == Good(Obj(fields), rest)
  {
    var s := "{" + t;
    assert s[0] == '{' && s[1..] == t;
    assert s[1] == t[0];
  }

  lemma EmptyDispatch(rest: string)
    ensures ParseValue("[" + "]" + rest) == Good(Arr([]), rest)
    ensures ParseValue("{" + "}" + rest) == Good(Obj([]), rest)
  {
    assert ("[" + "]" + rest)[2..] == rest;
    assert ("{" + "}" + rest)[2..] == rest;
  }

  lemma WordDispatch(rest: string)
    ensures ParseValue("null" + rest) == Good(Null, rest)
    ensures ParseValue("true" + rest) == Good(Bool(true), rest)
    ensures ParseValue("false" + rest) == Good(Bool(false), rest)
  {
    assert ("null" + rest)[4..] == rest;
    assert ("true" + rest)[4..] == rest;
    var f := "false" + rest;
    assert f[5..] == rest && f[0] == 'f';
    assert !("null" <= f) && !("true" <= f);
  }

  lemma StringDispatch(s: string, t: string, rest: string)
    requires ParseChars(s) == Good(t, rest)
    ensures ParseValue("\"" + s) == Good(Str(t), rest)
  {
    assert ("\"" + s)[0] == '"' && ("\"" + s)[1..] == s;
  }

  lemma StrRoundTrip(t: string, rest: string)
    ensures ParseValue(Quote(t) + rest) == Good(Str(t), rest)
  {
    CharsRoundTrip(t, rest);
    StringDispatch(EscapeAll(t) + "\"" + rest, t, rest);
    assert Quote(t) + rest == "\"" + (EscapeAll(t) + "\"" + rest);
  }

  /** Rendering starts with none of the characters that close a value. */
  lemma RenderHead(v: Json)
    ensures |Render(v)| > 0 && Render(v)[0] !in "]},:"
  {
    if v.Num? { DigitsInvert(if v.i < 0 then -v.i else v.i); }
  }

  /** A parser reads back exactly the rendered value and leaves exactly what follows it. */
  lemma {:induction false} RenderRoundTrip(v: Json, rest: string)
    requires Stops(rest)
    ensures ParseValue(Render(v) + rest) == Good(v, rest)
    decreases v, 1
  {
    match v
    case Null => WordDispatch(rest);
    case Bool(b) => WordDispatch(rest);
    case Num(i) => IntRoundTrip(i, rest);
    case Str(t) => StrRoundTrip(t, rest);
    case Arr(items) =>
      if items != [] { ItemsRoundTrip(items, rest); }
      ArrRoundTrip(items, rest);
    case Obj(fields) =>
      if fields != [] { FieldsRoundTrip(fields, rest); }
      ObjRoundTrip(fields, rest);
  }

  lemma ArrRoundTrip(items: seq<Json>, rest: string)
    requires items != [] ==> ParseItems(RenderItems(items) + "]" + rest) == Good(items, rest)
    ensures ParseValue("[" + RenderItems(items) + "]" + rest) == Good(Arr(items), rest)
  {
    var body := RenderItems(items) + "]" + rest;
    if items == [] {
      EmptyDispatch(rest);
      assert "[" + "" + "]" + rest == "[" + "]" + rest;
    } else {
      RenderHead(items[0]);
      assert body[0] == Render(items[0])[0];
      ListDispatch(body, items, rest);
      assert "[" + RenderItems(items) + "]" + rest == "[" + body;
    }
  }

  lemma ObjRoundTrip(fields: seq<Field>, rest: string)
    requires fields != [] ==> ParseFields(RenderFields(fields) + "}" + rest) == Good(fields, rest)
    ensures ParseValue("{" + RenderFields(fields) + "}" + rest) == Good(Obj(fields), rest)
  {
    var body := RenderFields(fields) + "}" + rest;
    if fields == [] {
      EmptyDispatch(rest);
      assert "{" + "" + "}" + rest == "{" + "}" + rest;
    } else {
      assert body[0] == '"';
      ObjectDispatch(body, fields, rest);
      assert "{" + RenderFields(fields) + "}" + rest == "{" + body;
    }
  }

  /** One element and what is left of the list. */
  lemma ItemsStep(s: string, v: Json, tail: string, vs: seq<Json>, rest: string)
    requires ParseValue(s) == Good(v, "," + tail) && ParseItems(tail) == Good(vs, rest)
    ensures ParseItems(s) == Good([v] + vs, rest)
  {
    assert ("," + tail)[1..] == tail;
  }

  lemma ItemsEnd(s: string, v: Json, rest: string)
    requires ParseValue(s) == Good(v, "]" + rest)
    ensures ParseItems(s) == Good([v], rest)
  {
    assert ("]" + rest)[1..] == rest;
  }

  lemma {:induction false} ItemsRoundTrip(items: seq<Json>, rest: string)
    requires items != []
    ensures ParseItems(RenderItems(items) + "]" + rest) == Good(items, rest)
    decreases items, 0
  {
    var v, r := items[0], Render(items[0]);
    if |items| == 1 {
      RenderRoundTrip(v, "]" + rest);
      assert r + "]" + rest == r + ("]" + rest);
      ItemsEnd(r + "]" + rest, v, rest);
      assert items == [v];
    } else {
      var tail := RenderItems(items[1..]) + "]" + rest;
      RenderRoundTrip(v, "," + tail);
      ItemsRoundTrip(items[1..], rest);
      Regroup(r, ",", RenderItems(items[1..]), "]", rest);
      ItemsStep(r + ("," + tail), v, tail, items[1..], rest);
      assert items == [v] + items[1..];
    }
  }

  lemma Regroup(a: string, sep: string, b: string, close: string, rest: string)
    ensures (a + sep + b) + close + rest == a + (sep + (b + close + rest))
  {}

  lemma FieldStep(s: string, f: Field, tail: string, fs: seq<Field>, rest: string)
    requires ParseField(s) == Good(f, "," + tail) && ParseFields(tail) == Good(fs, rest)
    ensures ParseFields(s) == Good([f] + fs, rest)
  {
    assert ("," + tail)[1..] == tail;
  }

  lemma FieldEnd(s: string, f: Field, rest: string)
    requires ParseField(s) == Good(f, "}" + rest)
    ensures ParseFields(s) == Good([f], rest)
  {
    assert ("}" + rest)[1..] == rest;
  }

  lemma KeyThenValue(key: string, text: string, s: string, value: Json, rest: string)
    requires ParseChars(text) == Good(key, ":" + s) && ParseValue(s) == Good(value, rest)
    ensures ParseField("\"" + text) == Good(Field(key, value), rest)
  {
    assert ("\"" + text)[1..] == text;
    assert (":" + s)[1..] == s;
  }

  lemma {:induction false} FieldRoundTrip(f: Field, rest: string)
    requires Stops(rest)
    ensures ParseField(RenderField(f) + rest) == Good(f, rest)
    decreases f, 2
  {
    var r := Render(f.value);
    var e := EscapeAll(f.key);
    RenderRoundTrip(f.value, rest);
    CharsRoundTrip(f.key, ":" + (r + rest));
    KeyThenValue(f.key, e + "\"" + (":" + (r + rest)), r + rest, f.value, rest);
    Requote(e, r, rest);
  }

  lemma Requote(e: string, r: string, rest: string)
    ensures ("\"" + e + "\"") + ":" + r + rest == "\"" + (e + "\"" + (":" + (r + rest)))
  {}

  lemma {:induction false} FieldsRoundTrip(fields: seq<Field>, rest: string)
    requires fields != []
    ensures ParseFields(RenderFields(fields) + "}" + rest) == Good(fields, rest)
    decreases fields, 0
  {
    var f, r := fields[0], RenderField(fields[0]);
    if |fields| == 1 {
      FieldRoundTrip(f, "}" + rest);
      assert r + "}" + rest == r + ("}" + rest);
      FieldEnd(r + "}" + rest, f, rest);
      assert fields == [f];
    } else {
      var tail := RenderFields(fields[1..]) + "}" + rest;
      FieldRoundTrip(f, "," + tail);
      FieldsRoundTrip(fields[1..], rest);
      Regroup(r, ",", RenderFields(fields[1..]), "}", rest);
      FieldStep(r + ("," + tail), f, tail, fields[1..], rest);
      assert fields == [f] + fields[1..];
    }
  }
}
