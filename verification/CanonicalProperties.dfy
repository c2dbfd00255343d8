/** What the canonical encoding determines: the value, up to the insertion order of object keys. */
module CanonicalProperties {
  import opened Options
  import opened JsonValues
  import opened Canonical
  import Utf8

  type Bytes = seq<Utf8.byte>

  /** earned_autonomy/crypto/canonical.py: `canonical_bytes`. */
  function CanonicalBytes(v: Json): Bytes {
    Utf8.Encode(CanonicalText(v))
  }

  // ---------- reference: equality of JSON values that ignores key order ----------

  /** No object repeats a key, which a Python dict cannot do. */
  predicate WellFormed(v: Json) {
    match v
    case Arr(items) => forall i :: 0 <= i < |items| ==> WellFormed(items[i])
    case Obj(fields) => DistinctKeys(fields) && forall i :: 0 <= i < |fields| ==> WellFormed(fields[i].value)
    case _ => true
  }

  predicate DistinctKeys(fields: seq<Field>) {
    forall i, j :: 0 <= i < j < |fields| ==> fields[i].key != fields[j].key
  }

  /** Same scalars, same lists, same mappings. */
  predicate Same(a: Json, b: Json) {
    match (a, b)
    case (Arr(xs), Arr(ys)) => |xs| == |ys| && forall i :: 0 <= i < |xs| ==> Same(xs[i], ys[i])
    case (Obj(fs), Obj(gs)) => SameFields(fs, gs) && Covers(gs, fs)
    case _ => a == b
  }

  /** Every field of `fs` has a counterpart in `gs`. */
  predicate SameFields(fs: seq<Field>, gs: seq<Field>) {
    forall i :: 0 <= i < |fs| ==>
      Lookup(gs, fs[i].key).Some? && Same(fs[i].value, Lookup(gs, fs[i].key).value)
  }

  /** Every key of `fs` is a key of `gs`. */
  predicate Covers(fs: seq<Field>, gs: seq<Field>) {
    forall i :: 0 <= i < |fs| ==> Lookup(gs, fs[i].key).Some?
  }

  /** A dict with JSON values, in insertion order. */
  type DictFields = fs: seq<Field> | WellFormed(Obj(fs))

  // ---------- lookups through sorting and normalization ----------

  predicate StrictlySorted(fields: seq<Field>) {
    forall i, j :: 0 <= i < j < |fields| ==> StrLess(fields[i].key, fields[j].key)
  }

  lemma {:induction false} LookupAt(fields: seq<Field>, i: nat)
    requires DistinctKeys(fields) && i < |fields|
    ensures Lookup(fields, fields[i].key) == Some(fields[i].value)
  {
    if i > 0 {
      assert fields[0].key != fields[i].key;
      LookupAt(fields[1..], i - 1);
    }
  }

  lemma {:induction false} LookupIndex(fields: seq<Field>, key: string) returns (i: nat)
    requires Lookup(fields, key).Some?
    ensures i < |fields| && fields[i].key == key && Lookup(fields, key) == Some(fields[i].value)
  {
    if fields[0].key == key {
      i := 0;
    } else {
      i := LookupIndex(fields[1..], key);
      i := i + 1;
    }
  }

  lemma {:induction false} InsertLookup(f: Field, sorted: seq<Field>, key: string)
    requires Lookup(sorted, f.key).None?
    ensures Lookup(InsertField(f, sorted), key) == if key == f.key then Some(f.value) else Lookup(sorted, key)
  {
    if sorted == [] || StrLess(f.key, sorted[0].key) {
      assert ([f] + sorted)[1..] == sorted;
    } else {
      InsertLookup(f, sorted[1..], key);
      var r := InsertField(f, sorted);
      assert r[0] == sorted[0] && r[1..] == InsertField(f, sorted[1..]);
    }
  }

  lemma TailDistinct(fields: seq<Field>)
    requires fields != [] && DistinctKeys(fields)
    ensures DistinctKeys(fields[1..]) && Lookup(fields[1..], fields[0].key).None?
  {
    LookupFinds(fields[1..], fields[0].key);
  }

  /** Sorting does not change what a key maps to. */
  lemma {:induction false} SortLookup(fields: seq<Field>, key: string)
    requires DistinctKeys(fields)
    ensures Lookup(SortFields(fields), key) == Lookup(fields, key)
  {
    if fields != [] {
      TailDistinct(fields);
      SortLookup(fields[1..], key);
      SortLookup(fields[1..], fields[0].key);
      InsertLookup(fields[0], SortFields(fields[1..]), key);
    }
  }

  lemma {:induction false} InsertSorted(f: Field, sorted: seq<Field>)
    requires StrictlySorted(sorted) && Lookup(sorted, f.key).None?
    ensures StrictlySorted(InsertField(f, sorted))
    ensures forall g :: g in InsertField(f, sorted) ==> g == f || g in sorted
  {
    if sorted == [] {
    } else if StrLess(f.key, sorted[0].key) {
      forall j | 0 <= j < |sorted| ensures StrLess(f.key, sorted[j].key) {
        if j > 0 { StrLessTransitive(f.key, sorted[0].key, sorted[j].key); }
      }
    } else {
      StrLessTotal(f.key, sorted[0].key);
      InsertSorted(f, sorted[1..]);
      var r := InsertField(f, sorted[1..]);
      forall j | 0 <= j < |r| ensures StrLess(sorted[0].key, r[j].key) {
        assert r[j] in r;
        if r[j] != f { assert r[j] in sorted[1..]; }
      }
    }
  }

  lemma {:induction false} SortSorted(fields: seq<Field>)
    requires DistinctKeys(fields)
    ensures StrictlySorted(SortFields(fields))
  {
    if fields != [] {
      TailDistinct(fields);
      SortSorted(fields[1..]);
      SortLookup(fields[1..], fields[0].key);
      InsertSorted(fields[0], SortFields(fields[1..]));
    }
  }

  lemma SortedDistinct(fields: seq<Field>)
    requires StrictlySorted(fields)
    ensures DistinctKeys(fields)
  {
    forall i, j | 0 <= i < j < |fields| ensures fields[i].key != fields[j].key {
      StrLessIrreflexive(fields[i].key);
    }
  }

  /** A strictly sorted list is determined by its mapping. */
  lemma {:induction false} SortedUnique(a: seq<Field>, b: seq<Field>)
    requires StrictlySorted(a) && StrictlySorted(b)
    requires forall key :: Lookup(a, key) == Lookup(b, key)
    ensures a == b
  {
    SortedDistinct(a);
    SortedDistinct(b);
    if b != [] { assert Lookup(a, b[0].key) == Some(b[0].value); }
    if a != [] { assert Lookup(b, a[0].key) == Some(a[0].value); }
    if a != [] && b != [] {
      HeadKey(a, b);
      HeadKey(b, a);
      if a[0].key != b[0].key {
        StrLessAsymmetric(a[0].key, b[0].key);
      }
      assert a[0].key == b[0].key;
      forall key ensures Lookup(a[1..], key) == Lookup(b[1..], key) {
        TailDistinct(a);
        TailDistinct(b);
        assert Lookup(a, key) == Lookup(b, key);
      }
      SortedUnique(a[1..], b[1..]);
      assert a == [a[0]] + a[1..] && b == [b[0]] + b[1..];
    }
  }

  /** The least key of one list is not below the least key of another with the same mapping. */
  lemma HeadKey(a: seq<Field>, b: seq<Field>)
    requires a != [] && b != [] && StrictlySorted(a) && Lookup(a, b[0].key) == Lookup(b, b[0].key)
    ensures a[0].key == b[0].key || StrLess(a[0].key, b[0].key)
  {
    var i := LookupIndex(a, b[0].key);
  }

  lemma {:induction false} NormalizedFieldAt(fields: seq<Field>, i: nat)
    requires i < |fields|
    ensures NormalizeFields(fields)[i] == Field(fields[i].key, Normalize(fields[i].value))
  {
    if i > 0 { NormalizedFieldAt(fields[1..], i - 1); }
  }

  lemma {:induction false} NormalizedItemAt(items: seq<Json>, i: nat)
    requires i < |items|
    ensures NormalizeItems(items)[i] == Normalize(items[i])
  {
    if i > 0 { NormalizedItemAt(items[1..], i - 1); }
  }

  lemma NormalizedDistinct(fields: seq<Field>)
    requires DistinctKeys(fields)
    ensures DistinctKeys(NormalizeFields(fields))
  {
    forall i, j | 0 <= i < j < |fields|
      ensures NormalizeFields(fields)[i].key != NormalizeFields(fields)[j].key
    {
      NormalizedFieldAt(fields, i);
      NormalizedFieldAt(fields, j);
    }
  }

  lemma {:induction false} NormalizedLookup(fields: seq<Field>, key: string)
    ensures Lookup(NormalizeFields(fields), key) ==
            match Lookup(fields, key) { case None => None case Some(v) => Some(Normalize(v)) }
  {
    if fields != [] {
      NormalizedLookup(fields[1..], key);
      assert NormalizeFields(fields)[1..] == NormalizeFields(fields[1..]);
    }
  }

  /** What a key maps to in the normal form of an object. */
  lemma CanonicalLookup(fields: seq<Field>, key: string)
    requires DistinctKeys(fields)
    ensures Lookup(SortFields(NormalizeFields(fields)), key) ==
            match Lookup(fields, key) { case None => None case Some(v) => Some(Normalize(v)) }
  {
    NormalizedDistinct(fields);
    SortLookup(NormalizeFields(fields), key);
    NormalizedLookup(fields, key);
  }

  /** Keys are in ascending code point order in every object inside. */
  predicate KeysAscend(v: Json) {
    match v
    case Arr(items) => forall i :: 0 <= i < |items| ==> KeysAscend(items[i])
    case Obj(fields) => StrictlySorted(fields) && forall i :: 0 <= i < |fields| ==> KeysAscend(fields[i].value)
    case _ => true
  }

  lemma {:induction false} SortedFrom(fields: seq<Field>)
    ensures forall f :: f in SortFields(fields) <==> f in fields
  {
    if fields != [] {
      SortedFrom(fields[1..]);
      InsertedFrom(fields[0], SortFields(fields[1..]));
      assert fields == [fields[0]] + fields[1..];
    }
  }

  lemma {:induction false} InsertedFrom(f: Field, sorted: seq<Field>)
    ensures forall g :: g in InsertField(f, sorted) <==> g == f || g in sorted
  {
    if sorted != [] && !StrLess(f.key, sorted[0].key) {
      InsertedFrom(f, sorted[1..]);
      assert sorted == [sorted[0]] + sorted[1..];
    }
  }

  /** What is rendered has its keys in order, at every depth. */
  lemma {:induction false} NormalizedAscends(v: Json)
    requires WellFormed(v)
    ensures KeysAscend(Normalize(v))
    decreases v
  {
    match v
    case Arr(items) =>
      forall i | 0 <= i < |items| ensures KeysAscend(NormalizeItems(items)[i]) {
        NormalizedItemAt(items, i);
        NormalizedAscends(items[i]);
      }
    case Obj(fields) =>
      var plain := NormalizeFields(fields);
      forall f | f in plain ensures KeysAscend(f.value) {
        var i :| 0 <= i < |plain| && plain[i] == f;
        NormalizedFieldAt(fields, i);
        NormalizedAscends(fields[i].value);
      }
      NormalizedDistinct(fields);
      SortSorted(plain);
      SortedFrom(plain);
      forall i | 0 <= i < |SortFields(plain)| ensures KeysAscend(SortFields(plain)[i].value) {
        assert SortFields(plain)[i] in plain;
      }
    case _ =>
  }

  /** And it is the same value. */
  lemma {:induction false} NormalIsSame(v: Json)
    requires WellFormed(v)
    ensures Same(Normalize(v), v)
    decreases v
  {
    match v
    case Arr(items) =>
      forall i | 0 <= i < |items| ensures Same(NormalizeItems(items)[i], items[i]) {
        NormalizedItemAt(items, i);
        NormalIsSame(items[i]);
      }
    case Obj(fields) =>
      forall j | 0 <= j < |fields|
        ensures Same(Normalize(fields[j].value), fields[j].value) && NormalizeFields(fields)[j] == Field(fields[j].key, Normalize(fields[j].value))
      {
        NormalizedFieldAt(fields, j);
        NormalIsSame(fields[j].value);
      }
      SortedIsSame(fields);
    case _ =>
  }

  lemma SortedIsSame(fields: seq<Field>)
    requires DistinctKeys(fields)
    requires forall j :: 0 <= j < |fields| ==>
               Same(Normalize(fields[j].value), fields[j].value) && NormalizeFields(fields)[j] == Field(fields[j].key, Normalize(fields[j].value))
    ensures Same(Normalize(Obj(fields)), Obj(fields))
  {
    var plain := NormalizeFields(fields);
    var sorted := SortFields(plain);
    SortedFrom(plain);
    forall i | 0 <= i < |sorted|
      ensures Lookup(fields, sorted[i].key).Some? && Same(sorted[i].value, Lookup(fields, sorted[i].key).value)
    {
      assert sorted[i] in plain;
      var j :| 0 <= j < |plain| && plain[j] == sorted[i];
      LookupAt(fields, j);
    }
    forall j | 0 <= j < |fields| ensures Lookup(sorted, fields[j].key).Some? {
      LookupAt(fields, j);
      CanonicalLookup(fields, fields[j].key);
    }
  }

  // ---------- the theorem ----------

  /** Two values have one normal form exactly when they are the same up to key order. */
  lemma {:induction false} NormalFormsAgree(a: Json, b: Json)
    requires WellFormed(a) && WellFormed(b)
    ensures Normalize(a) == Normalize(b) <==> Same(a, b)
    decreases a
  {
    if a.Arr? && b.Arr? {
      var xs, ys := a.items, b.items;
      if |xs| == |ys| {
        forall i | 0 <= i < |xs|
          ensures NormalizeItems(xs)[i] == NormalizeItems(ys)[i] <==> Same(xs[i], ys[i])
        {
          NormalizedItemAt(xs, i);
          NormalizedItemAt(ys, i);
          NormalFormsAgree(xs[i], ys[i]);
        }
        if Same(a, b) { assert NormalizeItems(xs) == NormalizeItems(ys); }
      }
    } else if a.Obj? && b.Obj? {
      forall i, w | 0 <= i < |a.fields| && WellFormed(w)
        ensures Normalize(a.fields[i].value) == Normalize(w) <==> Same(a.fields[i].value, w)
      {
        NormalFormsAgree(a.fields[i].value, w);
      }
      ObjectsAgree(a.fields, b.fields);
    }
  }

  /** The object case, given the statement for every value of `fs`. */
  lemma ObjectsAgree(fs: seq<Field>, gs: seq<Field>)
    requires WellFormed(Obj(fs)) && WellFormed(Obj(gs))
    requires forall i, w :: 0 <= i < |fs| && WellFormed(w) ==>
               (Normalize(fs[i].value) == Normalize(w) <==> Same(fs[i].value, w))
    ensures Normalize(Obj(fs)) == Normalize(Obj(gs)) <==> Same(Obj(fs), Obj(gs))
  {
    if Normalize(Obj(fs)) == Normalize(Obj(gs)) {
      SameNormalFormMeansSame(fs, gs);
    }
    if Same(Obj(fs), Obj(gs)) {
      var a, b := SortFields(NormalizeFields(fs)), SortFields(NormalizeFields(gs));
      NormalizedDistinct(fs);
      NormalizedDistinct(gs);
      SortSorted(NormalizeFields(fs));
      SortSorted(NormalizeFields(gs));
      forall key ensures Lookup(a, key) == Lookup(b, key) {
        CanonicalLookup(fs, key);
        CanonicalLookup(gs, key);
        SameLookup(fs, gs, key);
      }
      SortedUnique(a, b);
    }
  }

  lemma SameNormalFormMeansSame(fs: seq<Field>, gs: seq<Field>)
    requires WellFormed(Obj(fs)) && WellFormed(Obj(gs))
    requires forall i, w :: 0 <= i < |fs| && WellFormed(w) ==>
               (Normalize(fs[i].value) == Normalize(w) <==> Same(fs[i].value, w))
    requires SortFields(NormalizeFields(fs)) == SortFields(NormalizeFields(gs))
    ensures Same(Obj(fs), Obj(gs))
  {
    forall i | 0 <= i < |fs|
      ensures Lookup(gs, fs[i].key).Some? && Same(fs[i].value, Lookup(gs, fs[i].key).value)
    {
      LookupAt(fs, i);
      CanonicalLookup(fs, fs[i].key);
      CanonicalLookup(gs, fs[i].key);
      var j := LookupIndex(gs, fs[i].key);
      assert WellFormed(gs[j].value);
    }
    forall j | 0 <= j < |gs| ensures Lookup(fs, gs[j].key).Some? {
      LookupAt(gs, j);
      CanonicalLookup(fs, gs[j].key);
      CanonicalLookup(gs, gs[j].key);
    }
  }

  lemma SameLookup(fs: seq<Field>, gs: seq<Field>, key: string)
    requires WellFormed(Obj(fs)) && WellFormed(Obj(gs))
    requires forall i, w :: 0 <= i < |fs| && WellFormed(w) ==>
               (Normalize(fs[i].value) == Normalize(w) <==> Same(fs[i].value, w))
    requires SameFields(fs, gs) && Covers(gs, fs)
    ensures Lookup(fs, key).Some? <==> Lookup(gs, key).Some?
    ensures Lookup(fs, key).Some? ==> Normalize(Lookup(fs, key).value) == Normalize(Lookup(gs, key).value)
  {
    if Lookup(fs, key).Some? {
      var i := LookupIndex(fs, key);
      var j := LookupIndex(gs, key);
      assert WellFormed(gs[j].value);
    } else if Lookup(gs, key).Some? {
      var j := LookupIndex(gs, key);
    }
  }

  /** The canonical text is the one strict JSON text without insignificant white space of the value with
      its keys in ascending order at every depth: parsing it gives exactly that value. */
  lemma ParserRecovers(v: Json)
    requires WellFormed(v)
    ensures ParseValue(CanonicalText(v)) == Good(Normalize(v), "")
    ensures KeysAscend(Normalize(v)) && Same(Normalize(v), v)
  {
    TextParses(v);
    NormalizedAscends(v);
    NormalIsSame(v);
  }

  lemma TextParses(v: Json)
    ensures ParseValue(CanonicalText(v)) == Good(Normalize(v), "")
  {
    RenderRoundTrip(Normalize(v), "");
    assert CanonicalText(v) + "" == CanonicalText(v);
  }

  /** THE encoding theorem: equal canonical bytes, hence equal hash or signing input, mean equal
      values up to key order, and key order never changes the bytes. */
  lemma CanonicalBytesDetermineValue(a: Json, b: Json)
    requires WellFormed(a) && WellFormed(b)
    ensures CanonicalBytes(a) == CanonicalBytes(b) <==> Same(a, b)
  {
    NormalFormsAgree(a, b);
    if CanonicalBytes(a) == CanonicalBytes(b) {
      Utf8.EncodeInjective(CanonicalText(a), CanonicalText(b));
      TextParses(a);
      TextParses(b);
    }
  }
}
