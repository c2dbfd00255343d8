/** The JSON values that metadata, conditions, payloads and records are made of, with Python's
    comparison of them. An object keeps its insertion order, as a Python dict does. */
module JsonValues {
  import opened Options

  datatype Json =
    | Null
    | Bool(b: bool)
    | Num(i: int)
    | Str(s: string)
    | Arr(items: seq<Json>)
    | Obj(fields: seq<Field>)

  datatype Field = Field(key: string, value: Json)

  /** A Python dict seen as a lookup table. */
  type Dict = map<string, Json>

  /** `d.get(key)`: an absent key reads as None. */
  function Get(d: Dict, key: string): Json {
    if key in d then d[key] else Null
  }

  function Lookup(fields: seq<Field>, key: string): Option<Json> {
    if fields == [] then None
    else if fields[0].key == key then Some(fields[0].value)
    else Lookup(fields[1..], key)
  }

  /** A found value is the value of some field under that key. */
  lemma {:induction false} LookupFinds(fields: seq<Field>, key: string)
    ensures Lookup(fields, key).Some? ==> Field(key, Lookup(fields, key).value) in fields
    ensures Lookup(fields, key).None? <==> forall f :: f in fields ==> f.key != key
  {
    if fields != [] {
      assert fields == [fields[0]] + fields[1..];
      LookupFinds(fields[1..], key);
    }
  }

  /** Dict equality and list equality go through the elements; True equals 1 and False equals 0. */
  predicate PyEq(a: Json, b: Json) {
    if Numeric(a) && Numeric(b) then AsInt(a) == AsInt(b)
    else if a.Arr? && b.Arr? then
      |a.items| == |b.items| && forall i :: 0 <= i < |a.items| ==> PyEq(a.items[i], b.items[i])
    else if a.Obj? && b.Obj? then
      |a.fields| == |b.fields| &&
      forall i :: 0 <= i < |a.fields| ==>
        var other := Lookup(b.fields, a.fields[i].key);
        other.Some? && PyEq(a.fields[i].value, other.value)
    else a == b
  }

  predicate Numeric(a: Json) {
    a.Num? || a.Bool?
  }

  function AsInt(a: Json): int
    requires Numeric(a)
  {
    match a case Num(i) => i case Bool(b) => if b then 1 else 0
  }

  /** Code point order, a proper prefix first. */
  predicate StrLess(a: string, b: string) {
    if b == [] then false
    else if a == [] then true
    else if a[0] != b[0] then a[0] < b[0]
    else StrLess(a[1..], b[1..])
  }

  /** Python's `a < b`; None is its TypeError. */
  function PyLess(a: Json, b: Json): Option<bool>
    decreases a, 1
  {
    if Numeric(a) && Numeric(b) then Some(AsInt(a) < AsInt(b))
    else if a.Str? && b.Str? then Some(StrLess(a.s, b.s))
    else if a.Arr? && b.Arr? then ItemsLess(a.items, b.items)
    else None
  }

  function ItemsLess(a: seq<Json>, b: seq<Json>): Option<bool>
    decreases a, 0
  {
    if b == [] then Some(false)
    else if a == [] then Some(true)
    else if PyEq(a[0], b[0]) then ItemsLess(a[1..], b[1..])
    else PyLess(a[0], b[0])
  }

  /** `bool(a)`. */
  predicate Truthy(a: Json) {
    match a
    case Null => false
    case Bool(b) => b
    case Num(i) => i != 0
    case Str(s) => s != []
    case Arr(items) => items != []
    case Obj(fields) => fields != []
  }

  predicate Substring(a: string, b: string) {
    exists i :: 0 <= i <= |b| && a <= b[i..]
  }

  // ---------- the code point order is a strict total order ----------

  lemma {:induction false} StrLessIrreflexive(a: string)
    ensures !StrLess(a, a)
  {
    if a != [] { StrLessIrreflexive(a[1..]); }
  }

  lemma {:induction false} StrLessTotal(a: string, b: string)
    ensures StrLess(a, b) || StrLess(b, a) || a == b
  {
    if a != [] && b != [] && a[0] == b[0] {
      StrLessTotal(a[1..], b[1..]);
      assert a == [a[0]] + a[1..] && b == [b[0]] + b[1..];
    }
  }

  lemma {:induction false} StrLessTransitive(a: string, b: string, c: string)
    requires StrLess(a, b) && StrLess(b, c)
    ensures StrLess(a, c)
  {
    if a != [] && a[0] == b[0] && b[0] == c[0] {
      StrLessTransitive(a[1..], b[1..], c[1..]);
    }
  }

  lemma StrLessAsymmetric(a: string, b: string)
    requires StrLess(a, b)
    ensures !StrLess(b, a)
  {
    if StrLess(b, a) {
      StrLessTransitive(a, b, a);
      StrLessIrreflexive(a);
    }
  }

  /** A common prefix does not matter. */
  lemma {:induction false} StrLessPrefix(p: string, a: string, b: string)
    ensures StrLess(p + a, p + b) == StrLess(a, b)
  {
    if p == [] {
      assert p + a == a && p + b == b;
    } else {
      assert (p + a)[1..] == p[1..] + a && (p + b)[1..] == p[1..] + b;
      StrLessPrefix(p[1..], a, b);
    }
  }

  /** Two strings of one length that differ are ordered by what they are, whatever follows. */
  lemma {:induction false} StrLessExtend(a: string, b: string, x: string, y: string)
    requires |a| == |b| && StrLess(a, b)
    ensures StrLess(a + x, b + y)
  {
    assert (a + x)[0] == a[0] && (b + y)[0] == b[0];
    if a[0] == b[0] {
      assert (a + x)[1..] == a[1..] + x && (b + y)[1..] == b[1..] + y;
      StrLessExtend(a[1..], b[1..], x, y);
    }
  }
}
