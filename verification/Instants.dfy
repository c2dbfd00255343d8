/** UTC instants and the text `datetime.isoformat` prints for them, which is what the capability
    stores keep and compare as strings. An instant is the number of microseconds since
    0001-01-01T00:00:00, up to the end of the year 9999. */
module Instants {
  import opened Options
  import opened JsonValues
  import Canonical

  const SECOND := 1_000_000
  const DAY := 86_400 * SECOND

  /** One past the last day Python's datetime can hold. */
  const LAST_DAY := 3_652_059
  const MAX_INSTANT := LAST_DAY * DAY

  type Instant = t: nat | t < MAX_INSTANT

  // ---------- the Gregorian calendar ----------

  datatype Date = Date(year: nat, month: nat, day: nat)

  predicate Leap(y: nat) {
    y % 4 == 0 && (y % 100 != 0 || y % 400 == 0)
  }

  function DaysInMonth(y: nat, m: nat): nat {
    if m == 2 then (if Leap(y) then 29 else 28)
    else if m == 4 || m == 6 || m == 9 || m == 11 then 30
    else 31
  }

  predicate ValidDate(d: Date) {
    1 <= d.year && 1 <= d.month <= 12 && 1 <= d.day <= DaysInMonth(d.year, d.month)
  }

  function Tomorrow(d: Date): Date {
    if d.day < DaysInMonth(d.year, d.month) then Date(d.year, d.month, d.day + 1)
    else if d.month < 12 then Date(d.year, d.month + 1, 1)
    else Date(d.year + 1, 1, 1)
  }

  /** The date `n` days after 0001-01-01. */
  function DateOf(n: nat): (d: Date)
    ensures ValidDate(d)
  {
    if n == 0 then Date(1, 1, 1) else Tomorrow(DateOf(n - 1))
  }

  function DaysBeforeYear(y: nat): int
    requires 1 <= y
  {
    var x := y - 1;
    x * 365 + x / 4 - x / 100 + x / 400
  }

  function DaysBeforeMonth(y: nat, m: nat): nat {
    if m <= 1 then 0 else DaysBeforeMonth(y, m - 1) + DaysInMonth(y, m - 1)
  }

  /** Python's `date.toordinal`, the closed form. */
  function Ordinal(d: Date): int
    requires ValidDate(d)
  {
    DaysBeforeYear(d.year) + DaysBeforeMonth(d.year, d.month) + d.day
  }

  lemma Quotients(x: nat)
    ensures (x + 1) / 4 == x / 4 + (if (x + 1) % 4 == 0 then 1 else 0)
    ensures (x + 1) / 100 == x / 100 + (if (x + 1) % 100 == 0 then 1 else 0)
    ensures (x + 1) / 400 == x / 400 + (if (x + 1) % 400 == 0 then 1 else 0)
  {}

  lemma MultiplesNest(y: nat)
    ensures y % 400 == 0 ==> y % 100 == 0
    ensures y % 100 == 0 ==> y % 4 == 0
  {
    if y % 400 == 0 { assert y == 100 * (4 * (y / 400)); }
    if y % 100 == 0 { assert y == 4 * (25 * (y / 100)); }
  }

  lemma LeapCount(y: nat)
    ensures (if y % 4 == 0 then 1 else 0) - (if y % 100 == 0 then 1 else 0) + (if y % 400 == 0 then 1 else 0)
            == if Leap(y) then 1 else 0
  {
    MultiplesNest(y);
  }

  lemma YearLength(y: nat)
    requires 1 <= y
    ensures DaysBeforeYear(y + 1) == DaysBeforeYear(y) + (if Leap(y) then 366 else 365)
  {
    Quotients(y - 1);
    LeapCount(y);
  }

  lemma DecemberEndsYear(y: nat)
    ensures DaysBeforeMonth(y, 12) + 31 == if Leap(y) then 366 else 365
  {
    assert DaysBeforeMonth(y, 2) == 31;
    var february := DaysInMonth(y, 2);
    assert DaysBeforeMonth(y, 4) == 62 + february;
    assert DaysBeforeMonth(y, 6) == 123 + february;
    assert DaysBeforeMonth(y, 8) == 184 + february;
    assert DaysBeforeMonth(y, 10) == 245 + february;
  }

  lemma OrdinalOfTomorrow(d: Date)
    requires ValidDate(d)
    ensures ValidDate(Tomorrow(d)) && Ordinal(Tomorrow(d)) == Ordinal(d) + 1
  {
    if d.day == DaysInMonth(d.year, d.month) && d.month == 12 {
      YearLength(d.year);
      DecemberEndsYear(d.year);
    }
  }

  /** Walking day by day agrees with the closed form: the calendar is the Gregorian one. */
  lemma {:induction false} OrdinalOfDate(n: nat)
    ensures Ordinal(DateOf(n)) == n + 1
  {
    if n > 0 {
      OrdinalOfDate(n - 1);
      OrdinalOfTomorrow(DateOf(n - 1));
    }
  }

  /** Four digits hold the year of every instant. */
  lemma YearFits(n: nat)
    requires n < LAST_DAY
    ensures DateOf(n).year <= 9999
  {
    OrdinalOfDate(n);
    if DateOf(n).year >= 10_000 { FiveDigitYear(DateOf(n).year); }
  }

  lemma FiveDigitYear(y: nat)
    requires y >= 10_000
    ensures DaysBeforeYear(y) >= LAST_DAY
  {
    var x := y - 1;
    assert x / 4 - x / 100 >= 2400;
    assert x / 400 >= 24;
  }

  predicate DateLess(a: Date, b: Date) {
    a.year < b.year || (a.year == b.year && (a.month < b.month || (a.month == b.month && a.day < b.day)))
  }

  lemma {:induction false} LaterDay(m: nat, n: nat)
    requires m < n
    ensures DateLess(DateOf(m), DateOf(n))
    decreases n
  {
    assert DateLess(DateOf(n - 1), Tomorrow(DateOf(n - 1)));
    if m < n - 1 { LaterDay(m, n - 1); }
  }

  // ---------- printing ----------

  function Pow10(w: nat): nat {
    if w == 0 then 1 else 10 * Pow10(w - 1)
  }

  /** `n` in exactly `w` decimal digits. */
  function Pad(n: nat, w: nat): (s: string)
    ensures |s| == w
  {
    if w == 0 then "" else Pad(n / 10, w - 1) + [Canonical.Digit(n % 10)]
  }

  const WIDTHS: seq<nat> := [4, 2, 2, 2, 2, 2]
  const SEPARATORS: seq<string> := ["", "-", "-", "T", ":", ":"]

  /** The date and time of day of an instant, to the second. */
  function Fields(t: Instant): seq<nat> {
    var d := DateOf(t / DAY);
    var s := t % DAY / SECOND;
    [d.year, d.month, d.day, s / 3600, s / 60 % 60, s % 60]
  }

  function Print(values: seq<nat>, widths: seq<nat>, separators: seq<string>): string
    requires |values| == |widths| == |separators|
  {
    if values == [] then ""
    else separators[0] + Pad(values[0], widths[0]) + Print(values[1..], widths[1..], separators[1..])
  }

  /** isoformat prints microseconds only when there are some. */
  function Fraction(micros: nat): string {
    (if micros == 0 then "" else "." + Pad(micros, 6)) + "+00:00"
  }

  function Iso(t: Instant): string {
    Print(Fields(t), WIDTHS, SEPARATORS) + Fraction(t % SECOND)
  }

  // ---------- string order is time order ----------

  lemma {:induction false} PadOrder(m: nat, n: nat, w: nat)
    requires m < n < Pow10(w)
    ensures StrLess(Pad(m, w), Pad(n, w))
  {
    if m / 10 < n / 10 {
      PadOrder(m / 10, n / 10, w - 1);
      StrLessExtend(Pad(m / 10, w - 1), Pad(n / 10, w - 1), [Canonical.Digit(m % 10)], [Canonical.Digit(n % 10)]);
    } else {
      StrLessPrefix(Pad(m / 10, w - 1), [Canonical.Digit(m % 10)], [Canonical.Digit(n % 10)]);
    }
  }

  predicate LexLess(a: seq<nat>, b: seq<nat>)
    requires |a| == |b|
  {
    a != [] && (a[0] < b[0] || (a[0] == b[0] && LexLess(a[1..], b[1..])))
  }

  predicate Fit(values: seq<nat>, widths: seq<nat>)
    requires |values| == |widths|
  {
    forall i :: 0 <= i < |values| ==> values[i] < Pow10(widths[i])
  }

  lemma {:induction false} PrintLength(a: seq<nat>, b: seq<nat>, widths: seq<nat>, separators: seq<string>)
    requires |a| == |b| == |widths| == |separators|
    ensures |Print(a, widths, separators)| == |Print(b, widths, separators)|
  {
    if a != [] { PrintLength(a[1..], b[1..], widths[1..], separators[1..]); }
  }

  /** Fixed-width printing turns the field order into the string order. */
  lemma {:induction false} PrintOrder(a: seq<nat>, b: seq<nat>, widths: seq<nat>, separators: seq<string>)
    requires |a| == |b| == |widths| == |separators|
    requires LexLess(a, b) && Fit(b, widths)
    ensures StrLess(Print(a, widths, separators), Print(b, widths, separators))
  {
    var p, q := Pad(a[0], widths[0]), Pad(b[0], widths[0]);
    var x := Print(a[1..], widths[1..], separators[1..]);
    var y := Print(b[1..], widths[1..], separators[1..]);
    assert separators[0] + p + x == separators[0] + (p + x);
    assert separators[0] + q + y == separators[0] + (q + y);
    StrLessPrefix(separators[0], p + x, q + y);
    if a[0] < b[0] {
      PadOrder(a[0], b[0], widths[0]);
      StrLessExtend(p, q, x, y);
    } else {
      PrintOrder(a[1..], b[1..], widths[1..], separators[1..]);
      StrLessPrefix(p, x, y);
    }
  }

  lemma FieldsFit(t: Instant)
    ensures Fit(Fields(t), WIDTHS)
  {
    YearFits(t / DAY);
    var f := Fields(t);
    assert Pow10(2) == 100;
    assert Pow10(4) == 100 * Pow10(2);
    forall i | 0 <= i < |f| ensures f[i] < Pow10(WIDTHS[i]) {}
  }

  /** A later instant has later fields, or the same fields and more microseconds. */
  lemma FieldsOrder(t: Instant, u: Instant)
    requires t < u
    ensures LexLess(Fields(t), Fields(u)) || (Fields(t) == Fields(u) && t % SECOND < u % SECOND)
  {
    if t / DAY < u / DAY {
      LaterDay(t / DAY, u / DAY);
      LexFromDate(Fields(t), Fields(u));
    } else {
      SameDay(t, u);
      TimeOfDay(t % DAY, u % DAY);
      assert Fields(t)[..3] == Fields(u)[..3];
      LexFromTime(Fields(t), Fields(u));
    }
  }

  lemma SameDay(t: Instant, u: Instant)
    requires t < u && t / DAY >= u / DAY
    ensures t / DAY == u / DAY && t % DAY < u % DAY
    ensures t % DAY % SECOND == t % SECOND && u % DAY % SECOND == u % SECOND
  {
    assert t == t / DAY * DAY + t % DAY && u == u / DAY * DAY + u % DAY;
    WholeDays(t);
    WholeDays(u);
  }

  lemma WholeDays(t: nat)
    ensures t % DAY % SECOND == t % SECOND
  {
    var r := t % DAY;
    assert t == (t / DAY * 86_400 + r / SECOND) * SECOND + r % SECOND;
  }

  lemma LexFromDate(a: seq<nat>, b: seq<nat>)
    requires |a| == |b| == 6 && DateLess(Date(a[0], a[1], a[2]), Date(b[0], b[1], b[2]))
    ensures LexLess(a, b)
  {
    LexAt(a, b, if a[0] < b[0] then 0 else if a[1] < b[1] then 1 else 2);
  }

  lemma LexFromTime(a: seq<nat>, b: seq<nat>)
    requires |a| == |b| == 6 && a[..3] == b[..3]
    ensures a[3] < b[3] || (a[3] == b[3] && (a[4] < b[4] || (a[4] == b[4] && a[5] < b[5]))) ==> LexLess(a, b)
    ensures a[3] == b[3] && a[4] == b[4] && a[5] == b[5] ==> a == b
  {
    assert forall i :: 0 <= i < 3 ==> a[i] == a[..3][i] && b[i] == b[..3][i];
    if a[3] < b[3] { LexAt(a, b, 3); }
    else if a[3] == b[3] && a[4] < b[4] { LexAt(a, b, 4); }
    else if a[3] == b[3] && a[4] == b[4] && a[5] < b[5] { LexAt(a, b, 5); }
  }

  lemma {:induction false} LexAt(a: seq<nat>, b: seq<nat>, k: nat)
    requires |a| == |b| && k < |a| && a[k] < b[k]
    requires forall i :: 0 <= i < k ==> a[i] == b[i]
    ensures LexLess(a, b)
    decreases k
  {
    if k > 0 { LexAt(a[1..], b[1..], k - 1); }
  }

  lemma TimeOfDay(x: nat, y: nat)
    requires x < y < DAY
    ensures
      var s, u := x / SECOND, y / SECOND;
      || s / 3600 < u / 3600
      || (s / 3600 == u / 3600 && s / 60 % 60 < u / 60 % 60)
      || (s / 3600 == u / 3600 && s / 60 % 60 == u / 60 % 60 && s % 60 < u % 60)
      || (s / 3600 == u / 3600 && s / 60 % 60 == u / 60 % 60 && s % 60 == u % 60 && x % SECOND < y % SECOND)
  {
    var s, u := x / SECOND, y / SECOND;
    assert s <= u;
    assert s / 60 / 60 == s / 3600 && u / 60 / 60 == u / 3600;
  }

  lemma FractionOrder(m: nat, n: nat)
    requires m < n < SECOND
    ensures StrLess(Fraction(m), Fraction(n))
  {
    assert Pow10(2) == 100 && Pow10(4) == 100 * Pow10(2) && Pow10(6) == 100 * Pow10(4);
    if m == 0 {
      assert Fraction(m)[0] == '+' && Fraction(n)[0] == '.';
    } else {
      PadOrder(m, n, 6);
      StrLessExtend(Pad(m, 6), Pad(n, 6), "+00:00", "+00:00");
      StrLessPrefix(".", Pad(m, 6) + "+00:00", Pad(n, 6) + "+00:00");
      assert Fraction(m) == "." + (Pad(m, 6) + "+00:00");
      assert Fraction(n) == "." + (Pad(n, 6) + "+00:00");
    }
  }

  lemma IsoMonotone(t: Instant, u: Instant)
    requires t < u
    ensures StrLess(Iso(t), Iso(u))
  {
    FieldsOrder(t, u);
    var p, q := Print(Fields(t), WIDTHS, SEPARATORS), Print(Fields(u), WIDTHS, SEPARATORS);
    if LexLess(Fields(t), Fields(u)) {
      FieldsFit(u);
      PrintLength(Fields(t), Fields(u), WIDTHS, SEPARATORS);
      PrintOrder(Fields(t), Fields(u), WIDTHS, SEPARATORS);
      StrLessExtend(p, q, Fraction(t % SECOND), Fraction(u % SECOND));
    } else {
      FractionOrder(t % SECOND, u % SECOND);
      StrLessPrefix(p, Fraction(t % SECOND), Fraction(u % SECOND));
    }
  }

  /** THE order theorem: comparing two printed UTC instants as strings compares the instants, with
      six fractional digits or none on either side. */
  lemma IsoOrder(t: Instant, u: Instant)
    ensures StrLess(Iso(t), Iso(u)) <==> t < u
    ensures Iso(t) == Iso(u) <==> t == u
  {
    StrLessIrreflexive(Iso(t));
    if t < u { IsoMonotone(t, u); }
    if u < t { IsoMonotone(u, t); StrLessAsymmetric(Iso(u), Iso(t)); }
  }

  // ---------- what the text says ----------

  /** A padded number is written in digits and reads back as itself. */
  lemma {:induction false} PadReads(n: nat, w: nat)
    requires n < Pow10(w)
    ensures forall i :: 0 <= i < w ==> Canonical.IsDigit(Pad(n, w)[i])
    ensures Canonical.NatOf(Pad(n, w)) == n
  {
    if w > 0 {
      PadReads(n / 10, w - 1);
      var p := Pad(n, w);
      assert p[..|p| - 1] == Pad(n / 10, w - 1) && p[|p| - 1] == Canonical.Digit(n % 10);
    }
  }

  lemma Flatten(a: string, b: string, c: string, d: string, e: string, f: string)
    ensures a + ("-" + b + ("-" + c + ("T" + d + (":" + e + (":" + f)))))
            == a + "-" + b + "-" + c + "T" + d + ":" + e + ":" + f
  {
    assert "-" + b + ("-" + c + ("T" + d + (":" + e + (":" + f)))) == "-" + b + "-" + c + ("T" + d + (":" + e + (":" + f)));
    assert "T" + d + (":" + e + (":" + f)) == "T" + d + ":" + e + ":" + f;
  }

  lemma PrintSix(v: seq<nat>)
    requires |v| == 6
    ensures Print(v, WIDTHS, SEPARATORS) ==
            Pad(v[0], 4) + "-" + Pad(v[1], 2) + "-" + Pad(v[2], 2) + "T" + Pad(v[3], 2) + ":" + Pad(v[4], 2) + ":" + Pad(v[5], 2)
  {
    PrintTime(v);
    PrintFrom(v, 2);
    PrintFrom(v, 1);
    PrintFrom(v, 0);
    assert "" + Pad(v[0], 4) == Pad(v[0], 4);
    Flatten(Pad(v[0], 4), Pad(v[1], 2), Pad(v[2], 2), Pad(v[3], 2), Pad(v[4], 2), Pad(v[5], 2));
    assert v[0..] == v && WIDTHS[0..] == WIDTHS && SEPARATORS[0..] == SEPARATORS;
  }

  lemma PrintTime(v: seq<nat>)
    requires |v| == 6
    ensures Print(v[3..], WIDTHS[3..], SEPARATORS[3..]) == "T" + Pad(v[3], 2) + (":" + Pad(v[4], 2) + (":" + Pad(v[5], 2)))
  {
    PrintFrom(v, 3);
    PrintFrom(v, 4);
    PrintFrom(v, 5);
    assert Print(v[6..], WIDTHS[6..], SEPARATORS[6..]) == "";
    assert ":" + Pad(v[5], 2) + "" == ":" + Pad(v[5], 2);
  }

  lemma PrintFrom(v: seq<nat>, i: nat)
    requires |v| == 6 && i < 6
    ensures Print(v[i..], WIDTHS[i..], SEPARATORS[i..]) ==
            SEPARATORS[i] + Pad(v[i], WIDTHS[i]) + Print(v[i + 1..], WIDTHS[i + 1..], SEPARATORS[i + 1..])
  {
    assert v[i..][1..] == v[i + 1..] && WIDTHS[i..][1..] == WIDTHS[i + 1..] && SEPARATORS[i..][1..] == SEPARATORS[i + 1..];
  }

  lemma ClockTime(x: nat, h: nat, m: nat, s: nat, us: nat)
    requires h < 24 && m < 60 && s < 60 && us < 1_000_000 && x == ((h * 60 + m) * 60 + s) * 1_000_000 + us
    ensures x / SECOND / 3600 == h && x / SECOND / 60 % 60 == m && x / SECOND % 60 == s && x % SECOND == us
  {
    assert x / SECOND == (h * 60 + m) * 60 + s && x % SECOND == us;
  }

  /** The text of an instant: its date, its time of day on a 24-hour clock, six fractional digits when
      there are microseconds, and the UTC offset. */
  lemma IsoText(t: Instant, h: nat, m: nat, s: nat, us: nat)
    requires h < 24 && m < 60 && s < 60 && us < 1_000_000
    requires t % 86_400_000_000 == ((h * 60 + m) * 60 + s) * 1_000_000 + us
    ensures
      var d := DateOf(t / 86_400_000_000);
      Iso(t) == Pad(d.year, 4) + "-" + Pad(d.month, 2) + "-" + Pad(d.day, 2)
                + "T" + Pad(h, 2) + ":" + Pad(m, 2) + ":" + Pad(s, 2)
                + (if us == 0 then "" else "." + Pad(us, 6)) + "+00:00"
  {
    ClockTime(t % DAY, h, m, s, us);
    WholeDays(t);
    PrintSix(Fields(t));
    assert Fraction(us) == (if us == 0 then "" else "." + Pad(us, 6)) + "+00:00";
  }

  /** `datetime.fromisoformat` on the texts above; None is its ValueError. */
  function FromIso(s: string): (r: Option<Instant>)
    ensures forall t: Instant :: r == Some(t) <==> Iso(t) == s
  {
    IsoInjective();
    if exists t: Instant :: 0 <= t < MAX_INSTANT && Iso(t) == s then
      var t: Instant :| 0 <= t < MAX_INSTANT && Iso(t) == s;
      Some(t)
    else None
  }

  lemma IsoInjective()
    ensures forall t: Instant, u: Instant :: Iso(t) == Iso(u) ==> t == u
  {
    forall t: Instant, u: Instant ensures Iso(t) == Iso(u) ==> t == u {
      IsoOrder(t, u);
    }
  }
}
