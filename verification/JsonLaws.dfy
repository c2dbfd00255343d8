/** What Python's comparisons of JSON values amount to. */
module JsonLaws {
  import opened Options
  import opened JsonValues
  import opened CanonicalProperties

  // ---------- equality ----------

  /** The value with True and False written as 1 and 0, at every depth. */
  function Numbers(v: Json): Json {
    match v
    case Bool(b) => Num(if b then 1 else 0)
    case Arr(items) => Arr(seq(|items|, i requires 0 <= i < |items| => Numbers(items[i])))
    case Obj(fields) => Obj(NumberFields(fields))
    case _ => v
  }

  function NumberFields(fields: seq<Field>): (r: seq<Field>)
    ensures |r| == |fields|
  {
    seq(|fields|, i requires 0 <= i < |fields| => Field(fields[i].key, Numbers(fields[i].value)))
  }

  lemma {:induction false} NumberLookup(fields: seq<Field>, key: string)
    ensures Lookup(NumberFields(fields), key) ==
            match Lookup(fields, key) { case None => None case Some(v) => Some(Numbers(v)) }
  {
    if fields != [] {
      assert NumberFields(fields)[1..] == NumberFields(fields[1..]);
      NumberLookup(fields[1..], key);
    }
  }

  function Keys(fields: seq<Field>): set<string> {
    set f | f in fields :: f.key
  }

  lemma {:induction false} KeyCount(fields: seq<Field>)
    requires DistinctKeys(fields)
    ensures |Keys(fields)| == |fields|
  {
    if fields == [] {
      assert Keys(fields) == {};
    } else {
      var rest := fields[1..];
      KeyCount(rest);
      assert fields == [fields[0]] + rest;
      assert Keys(fields) == Keys(rest) + {fields[0].key};
      assert fields[0].key !in Keys(rest);
    }
  }

  lemma FoundKeys(fs: seq<Field>, gs: seq<Field>)
    ensures Keys(fs) <= Keys(gs) <==> forall i :: 0 <= i < |fs| ==> Lookup(gs, fs[i].key).Some?
  {
    forall i | 0 <= i < |fs| ensures Lookup(gs, fs[i].key).Some? <==> fs[i].key in Keys(gs) {
      LookupFinds(gs, fs[i].key);
    }
    if forall i :: 0 <= i < |fs| ==> Lookup(gs, fs[i].key).Some? {
      forall key | key in Keys(fs) ensures key in Keys(gs) {
        var i :| 0 <= i < |fs| && fs[i].key == key;
      }
    } else {
      var i :| 0 <= i < |fs| && Lookup(gs, fs[i].key).None?;
      assert fs[i] in fs && fs[i].key in Keys(fs);
    }
  }

  lemma SubsetOfSameSize<T>(a: set<T>, b: set<T>)
    requires a <= b && |a| == |b|
    ensures a == b
  {
    assert b == a + (b - a);
    assert |b| == |a| + |b - a|;
  }

  /** Two dicts of one size: if one finds all its keys in the other, so does the other. */
  lemma SizesCover(fs: seq<Field>, gs: seq<Field>)
    requires DistinctKeys(fs) && DistinctKeys(gs) && forall i :: 0 <= i < |fs| ==> Lookup(gs, fs[i].key).Some?
    ensures |fs| == |gs| <==> Covers(gs, fs)
  {
    KeyCount(fs);
    KeyCount(gs);
    FoundKeys(fs, gs);
    FoundKeys(gs, fs);
    if |fs| == |gs| { SubsetOfSameSize(Keys(fs), Keys(gs)); }
    if Keys(gs) <= Keys(fs) { assert Keys(fs) == Keys(gs); }
  }

  /** `a == b` is equality as mappings, lists and scalars, with True equal to 1 and False to 0. */
  lemma {:induction false} PyEqIsSame(a: Json, b: Json)
    requires WellFormed(a) && WellFormed(b)
    ensures PyEq(a, b) <==> Same(Numbers(a), Numbers(b))
  {
    match (a, b)
    case (Arr(xs), Arr(ys)) =>
      var ns, ms := Numbers(a).items, Numbers(b).items;
      assert |ns| == |xs| && |ms| == |ys|;
      if |xs| == |ys| {
        forall i | 0 <= i < |xs| ensures PyEq(xs[i], ys[i]) <==> Same(ns[i], ms[i]) {
          PyEqIsSame(xs[i], ys[i]);
        }
      }
    case (Obj(fs), Obj(gs)) =>
      forall i | 0 <= i < |fs| && Lookup(gs, fs[i].key).Some?
        ensures PyEq(fs[i].value, Lookup(gs, fs[i].key).value)
                <==> Same(Numbers(fs[i].value), Numbers(Lookup(gs, fs[i].key).value))
      {
        var j := LookupIndex(gs, fs[i].key);
        PyEqIsSame(fs[i].value, gs[j].value);
      }
      DictsEqual(fs, gs);
    case _ =>
  }

  /** Whether a key is found, and what is found, is the same with numbers written for booleans. */
  lemma FoundNumbers(fs: seq<Field>, gs: seq<Field>, i: nat)
    requires i < |fs|
    ensures NumberFields(fs)[i] == Field(fs[i].key, Numbers(fs[i].value))
    ensures Lookup(NumberFields(gs), fs[i].key).Some? <==> Lookup(gs, fs[i].key).Some?
    ensures Lookup(gs, fs[i].key).Some? ==> Lookup(NumberFields(gs), fs[i].key).value == Numbers(Lookup(gs, fs[i].key).value)
  {
    NumberLookup(gs, fs[i].key);
  }

  /** Every key of `fs` is found in `gs` with an equal value. */
  ghost predicate Finds(fs: seq<Field>, gs: seq<Field>) {
    forall i :: 0 <= i < |fs| ==> Lookup(gs, fs[i].key).Some? && PyEq(fs[i].value, Lookup(gs, fs[i].key).value)
  }

  lemma FindsNumbers(fs: seq<Field>, gs: seq<Field>)
    requires forall i :: 0 <= i < |fs| && Lookup(gs, fs[i].key).Some? ==>
               (PyEq(fs[i].value, Lookup(gs, fs[i].key).value)
                <==> Same(Numbers(fs[i].value), Numbers(Lookup(gs, fs[i].key).value)))
    ensures Finds(fs, gs) <==> SameFields(NumberFields(fs), NumberFields(gs))
  {
    var ns, ms := NumberFields(fs), NumberFields(gs);
    forall i | 0 <= i < |fs|
      ensures (Lookup(gs, fs[i].key).Some? && PyEq(fs[i].value, Lookup(gs, fs[i].key).value))
              <==> (Lookup(ms, ns[i].key).Some? && Same(ns[i].value, Lookup(ms, ns[i].key).value))
    {
      FoundNumbers(fs, gs, i);
    }
  }

  lemma DictsEqual(fs: seq<Field>, gs: seq<Field>)
    requires DistinctKeys(fs) && DistinctKeys(gs)
    requires forall i :: 0 <= i < |fs| && Lookup(gs, fs[i].key).Some? ==>
               (PyEq(fs[i].value, Lookup(gs, fs[i].key).value)
                <==> Same(Numbers(fs[i].value), Numbers(Lookup(gs, fs[i].key).value)))
    ensures PyEq(Obj(fs), Obj(gs)) <==> Same(Numbers(Obj(fs)), Numbers(Obj(gs)))
  {
    FindsNumbers(fs, gs);
    CoversNumbers(fs, gs);
    if Finds(fs, gs) { SizesCover(fs, gs); }
    assert PyEq(Obj(fs), Obj(gs)) <==> |fs| == |gs| && Finds(fs, gs);
  }

  lemma CoversNumbers(fs: seq<Field>, gs: seq<Field>)
    ensures Covers(NumberFields(gs), NumberFields(fs)) <==> Covers(gs, fs)
  {
    var ns, ms := NumberFields(fs), NumberFields(gs);
    forall j | 0 <= j < |gs| ensures ms[j].key == gs[j].key && Lookup(ns, gs[j].key).Some? == Lookup(fs, gs[j].key).Some? {
      NumberLookup(fs, gs[j].key);
    }
  }

  // ---------- order ----------

  /** The first text ends inside the second, or has the smaller character at their first difference. */
  ghost predicate TextBefore(a: string, b: string) {
    exists n: nat :: Parts(a, b, n)
  }

  predicate Parts(a: string, b: string, n: nat) {
    n <= |a| && n < |b| && a[..n] == b[..n] && (n == |a| || a[n] < b[n])
  }

  lemma {:induction false} StrLessMeans(a: string, b: string)
    ensures StrLess(a, b) <==> TextBefore(a, b)
  {
    if a == [] {
      if b != [] { assert Parts(a, b, 0); }
    } else if b != [] {
      forall n: nat | n > 0 && Parts(a, b, n) ensures a[0] == b[0] {
        assert a[..n][0] == b[..n][0];
      }
      if a[0] != b[0] {
        if a[0] < b[0] { assert Parts(a, b, 0); }
      } else {
        StrLessMeans(a[1..], b[1..]);
        if n: nat :| Parts(a[1..], b[1..], n) {
          assert a[..n + 1] == [a[0]] + a[1..][..n] && b[..n + 1] == [b[0]] + b[1..][..n];
          assert Parts(a, b, n + 1);
        }
        if n: nat :| Parts(a, b, n) {
          assert a[1..][..n - 1] == a[..n][1..] && b[1..][..n - 1] == b[..n][1..];
          assert Parts(a[1..], b[1..], n - 1);
        }
      }
    }
  }

  /** `a < b` compares numbers with numbers and texts with texts; other values raise, two lists aside. */
  lemma OrderMeans(a: Json, b: Json)
    ensures forall m, n :: Numbers(a) == Num(m) && Numbers(b) == Num(n) ==> PyLess(a, b) == Some(m < n)
    ensures a.Str? && b.Str? ==> PyLess(a, b) == Some(TextBefore(a.s, b.s))
    ensures !(Numbers(a).Num? && Numbers(b).Num?) && !(a.Str? && b.Str?) && !(a.Arr? && b.Arr?) ==> PyLess(a, b) == None
  {
    if a.Str? && b.Str? { StrLessMeans(a.s, b.s); }
  }

  /** Lists compare by their first difference, a proper prefix first. */
  lemma {:induction false} ListOrder(a: seq<Json>, b: seq<Json>, i: nat)
    requires i <= |a| && i <= |b| && forall j :: 0 <= j < i ==> PyEq(a[j], b[j])
    requires i < |a| && i < |b| ==> !PyEq(a[i], b[i])
    ensures PyLess(Arr(a), Arr(b)) == if i < |a| && i < |b| then PyLess(a[i], b[i]) else if i == |a| || i == |b| then Some(|a| < |b|) else None
  {
    if i > 0 {
      forall j | 0 <= j < i - 1 ensures PyEq(a[1..][j], b[1..][j]) {
        assert a[1..][j] == a[j + 1] && b[1..][j] == b[j + 1];
      }
      ListOrder(a[1..], b[1..], i - 1);
    }
  }

  /** A substring is what is left when something before and something after is cut off. */
  lemma SubstringMeans(a: string, b: string)
    ensures Substring(a, b) <==> exists before, after :: b == before + a + after
  {
    if Substring(a, b) {
      var i :| 0 <= i <= |b| && a <= b[i..];
      assert b == b[..i] + a + b[i + |a|..];
    }
    if before, after :| b == before + a + after {
      assert b[|before|..] == a + after;
    }
  }
}
