/** The Wilson score lower bound that serves as the trust signal
    (earned_autonomy/core/models.py), over exact reals.

    The bound needs one square root. It is given here as any non-negative `root` whose square is
    the radicand; `RootIsUnique` shows that this leaves no freedom, and `AtLeast` decides every
    comparison the recommender makes without any root at all. */
module Wilson {

  /** The 95% quantile the source uses as a default argument. */
  const Z := 1.96

  /** The argument of the square root for `s` successes out of `n` trials. */
  function Radicand(s: nat, n: nat): (x: real)
    requires n > 0
  {
    var phat := s as real / n as real;
    (phat * (1.0 - phat) + Z * Z / (4.0 * n as real)) / n as real
  }

  ghost predicate IsRoot(root: real, s: nat, n: nat) {
    0.0 <= root && (n > 0 ==> root * root == Radicand(s, n))
  }

  /** Wilson score lower bound on a binomial proportion; 0 on no evidence. */
  function LowerBound(s: nat, n: nat, root: real): (lb: real) {
    if n == 0 then 0.0 else
      var phat := s as real / n as real;
      var denom := 1.0 + Z * Z / n as real;
      var centre := phat + Z * Z / (2.0 * n as real);
      var margin := Z * root;
      var raw := (centre - margin) / denom;
      if raw < 0.0 then 0.0 else raw
  }

  /** The bound before the `max(0, .)` clamp. */
  function Unclamped(s: nat, n: nat, root: real): (lb: real)
    requires n > 0
  {
    (s as real / n as real + Z * Z / (2.0 * n as real) - Z * root) / (1.0 + Z * Z / n as real)
  }

  /** Root-free reference: `s` successes out of `n` put the bound at `t` or above. */
  predicate AtLeast(s: nat, n: nat, t: real) {
    var x := s as real - n as real * t;
    0.0 <= x && Z * Z * n as real * t * (1.0 - t) <= x * x
  }

  // ---------- small nonlinear steps ----------

  lemma MulNonneg(a: real, b: real)
    requires 0.0 <= a && 0.0 <= b
    ensures 0.0 <= a * b
  {}

  lemma MulPositive(a: real, b: real)
    requires 0.0 < a && 0.0 < b
    ensures 0.0 < a * b
  {}

  lemma MulMono(a: real, b: real, c: real)
    requires a <= b && 0.0 <= c
    ensures a * c <= b * c
  {
    MulNonneg(b - a, c);
  }

  lemma CancelPositive(a: real, b: real, c: real)
    requires 0.0 < c
    ensures a * c <= b * c <==> a <= b
  {
    if a <= b { MulMono(a, b, c); } else { MulPositive(a - b, c); }
  }

  lemma SquareMono(a: real, b: real)
    requires 0.0 <= a && 0.0 <= b
    ensures a <= b <==> a * a <= b * b
  {
    assert b * b - a * a == (b - a) * (b + a);
    if a <= b {
      MulNonneg(b - a, b + a);
    } else {
      MulPositive(a - b, b + a);
      assert (a - b) * (b + a) == a * a - b * b;
    }
  }

  lemma DivPositive(a: real, b: real)
    requires 0.0 < a && 0.0 < b
    ensures 0.0 < a / b
  {
    CancelPositive(a / b, 0.0, b);
    assert a / b * b == a;
  }

  lemma ProductZero(a: real, b: real)
    requires 0.0 <= a && 0.0 < b && a * b <= 0.0
    ensures a == 0.0
  {
    CancelPositive(a, 0.0, b);
  }

  lemma ProportionInUnit(s: nat, n: nat)
    requires n > 0 && s <= n
    ensures 0.0 <= s as real / n as real <= 1.0
  {
    var p := s as real / n as real;
    assert p * n as real == s as real;
    CancelPositive(0.0, p, n as real);
    CancelPositive(p, 1.0, n as real);
  }

  /** The square root is determined by the evidence. */
  lemma RootIsUnique(s: nat, n: nat, r1: real, r2: real)
    requires n > 0 && IsRoot(r1, s, n) && IsRoot(r2, s, n)
    ensures r1 == r2
  {
    SquareMono(r1, r2);
    SquareMono(r2, r1);
  }

  /** Evidence is a proportion, so the radicand is positive: the source never takes the root of a
      negative number. */
  lemma RadicandPositive(s: nat, n: nat)
    requires n > 0 && s <= n
    ensures 0.0 < Radicand(s, n)
  {
    var N := n as real;
    var p := s as real / N;
    assert 0.0 <= p <= 1.0 by { ProportionInUnit(s, n); }
    MulNonneg(p, 1.0 - p);
    assert 0.0 < Z * Z / (4.0 * N) by { DivPositive(Z * Z, 4.0 * N); }
    DivPositive(p * (1.0 - p) + Z * Z / (4.0 * N), N);
  }

  // ---------- the threshold theorem ----------

  /** The algebra behind the threshold, with p = s/n and q = z*z/n:
      the squared gap factors through (p - t)^2 - q t (1 - t). */
  lemma GapFactors(p: real, q: real, t: real)
    ensures
      var a := (p - t) + q * (1.0 - 2.0 * t) / 2.0;
      a * a - q * (p * (1.0 - p) + q / 4.0) == (1.0 + q) * ((p - t) * (p - t) - q * t * (1.0 - t))
  {
    var d := p - t;
    var a := d + q * (1.0 - 2.0 * t) / 2.0;
    var u := 1.0 - 2.0 * t;
    assert a * a == d * d + q * d * u + q * q * (u * u) / 4.0;
    assert u * u == 1.0 - 4.0 * t + 4.0 * t * t;
    assert q * q * (u * u) / 4.0 == q * q / 4.0 - q * q * t + q * q * (t * t);
    assert d * u == d - 2.0 * t * d;
    assert d * u - p * (1.0 - p) == d * d - t * (1.0 - t) by {
      assert d * d == p * p - 2.0 * p * t + t * t;
      assert d * u == p - t - 2.0 * t * p + 2.0 * t * t;
    }
    assert q * (d * u) - q * (p * (1.0 - p)) == q * (d * d - t * (1.0 - t));
    assert q * q * (t * t) - q * q * t == -(q * (q * (t * (1.0 - t))));
    var g := d * d - q * t * (1.0 - t);
    assert (1.0 + q) * g == d * d - q * (t * (1.0 - t)) + q * (d * d) - q * (q * (t * (1.0 - t)));
  }

  /** `a >= 0 && a^2 >= q(p(1-p) + q/4)` says the same as `p >= t && (p-t)^2 >= q t (1-t)`. */
  lemma ThresholdCore(p: real, q: real, t: real)
    requires 0.0 <= p <= 1.0 && 0.0 < q && 0.0 <= t < 1.0
    ensures
      var a := (p - t) + q * (1.0 - 2.0 * t) / 2.0;
      (0.0 <= a && q * (p * (1.0 - p) + q / 4.0) <= a * a)
      <==> (t <= p && q * t * (1.0 - t) <= (p - t) * (p - t))
  {
    var a := (p - t) + q * (1.0 - 2.0 * t) / 2.0;
    var d := p - t;
    var v := q * t * (1.0 - t);
    GapFactors(p, q, t);
    var lhs := a * a - q * (p * (1.0 - p) + q / 4.0);
    assert lhs == (1.0 + q) * (d * d - v);
    CancelPositive(0.0, d * d - v, 1.0 + q);
    assert 0.0 <= lhs <==> v <= d * d;
    if v <= d * d {
      if t <= p {
        GapNonnegative(p, q, t);
      } else {
        GapNegative(p, q, t);
      }
    }
  }

  lemma GapNonnegative(p: real, q: real, t: real)
    requires 0.0 <= t <= p <= 1.0 && t < 1.0 && 0.0 < q
    requires q * t * (1.0 - t) <= (p - t) * (p - t)
    ensures 0.0 <= (p - t) + q * (1.0 - 2.0 * t) / 2.0
  {
    var d := p - t;
    MulMono(d, 1.0 - t, d);
    assert (q * t) * (1.0 - t) <= d * (1.0 - t);
    CancelPositive(q * t, d, 1.0 - t);
    assert q * (1.0 - 2.0 * t) / 2.0 == q / 2.0 - q * t;
  }

  lemma GapNegative(p: real, q: real, t: real)
    requires 0.0 <= p < t < 1.0 && 0.0 < q
    requires q * t * (1.0 - t) <= (p - t) * (p - t)
    ensures (p - t) + q * (1.0 - 2.0 * t) / 2.0 < 0.0
  {
    var d := t - p;
    var e := q * (1.0 - t);
    MulMono(d, t, d);
    assert e * t <= d * t;
    CancelPositive(e, d, t);
    assert q * (1.0 - 2.0 * t) / 2.0 == e - q / 2.0;
  }

  /** The proportion and the penalty `z*z/n`, the two quantities the bound is made of. */
  ghost predicate Scaled(s: nat, n: nat, p: real, q: real) {
    n > 0 && p == s as real / n as real && q == Z * Z / n as real
  }

  /** Scaling `p` and `q` back to counts. */
  lemma CountsForm(s: nat, n: nat, t: real, p: real, q: real)
    requires Scaled(s, n, p, q)
    ensures (t <= p && q * t * (1.0 - t) <= (p - t) * (p - t)) <==> AtLeast(s, n, t)
  {
    var N := n as real;
    assert p * N == s as real && q * N == Z * Z;
    var d := p - t;
    assert d * N == s as real - N * t;
    CancelPositive(0.0, d, N);
    var w := t * (1.0 - t);
    assert (d * N) * (d * N) == (d * d) * (N * N);
    assert q * w * (N * N) == (Z * Z) * N * w by {
      assert q * w * (N * N) == (q * N) * (w * N);
    }
    CancelPositive(q * w, d * d, N * N);
    assert q * t * (1.0 - t) == q * w;
    assert Z * Z * N * t * (1.0 - t) == (Z * Z) * N * w;
  }

  /** Comparing the unclamped bound with `t` is comparing `z * root` with a polynomial. */
  lemma UnclampedVersusGap(s: nat, n: nat, root: real, t: real, p: real, q: real)
    requires Scaled(s, n, p, q)
    ensures t <= Unclamped(s, n, root) <==> Z * root <= (p - t) + q * (1.0 - 2.0 * t) / 2.0
  {
    var N := n as real;
    DivPositive(Z * Z, N);
    assert Z * Z / (2.0 * N) == q / 2.0;
    var u := Unclamped(s, n, root);
    assert u * (1.0 + q) == p + q / 2.0 - Z * root;
    CancelPositive(t, u, 1.0 + q);
    assert t * (1.0 + q) == t + q * t;
    assert q * (1.0 - 2.0 * t) / 2.0 == q / 2.0 - q * t;
  }

  /** The squared margin. */
  lemma MarginSquared(s: nat, n: nat, root: real, p: real, q: real)
    requires Scaled(s, n, p, q) && IsRoot(root, s, n)
    ensures (Z * root) * (Z * root) == q * (p * (1.0 - p) + q / 4.0)
  {
    var N := n as real;
    var y := p * (1.0 - p) + Z * Z / (4.0 * N);
    assert (Z * root) * (Z * root) == (Z * Z) * (root * root);
    assert root * root == y / N;
    assert Z * Z / (4.0 * N) == q / 4.0;
    assert (Z * Z) * (y / N) == q * y;
  }

  /** The unclamped bound reaches `t` exactly when the root-free condition holds. */
  lemma UnclampedThreshold(s: nat, n: nat, root: real, t: real)
    requires n > 0 && s <= n && IsRoot(root, s, n) && 0.0 <= t < 1.0
    ensures t <= Unclamped(s, n, root) <==> AtLeast(s, n, t)
  {
    ProportionInUnit(s, n);
    DivPositive(Z * Z, n as real);
    ThresholdVia(s, n, root, t, s as real / n as real, Z * Z / n as real);
  }

  lemma ThresholdVia(s: nat, n: nat, root: real, t: real, p: real, q: real)
    requires Scaled(s, n, p, q) && IsRoot(root, s, n) && 0.0 <= t < 1.0
    requires 0.0 <= p <= 1.0 && 0.0 < q
    ensures t <= Unclamped(s, n, root) <==> AtLeast(s, n, t)
  {
    UnclampedVersusGap(s, n, root, t, p, q);
    CountsForm(s, n, t, p, q);
    MarginVia(s, n, root, t, p, q);
  }

  lemma MarginVia(s: nat, n: nat, root: real, t: real, p: real, q: real)
    requires Scaled(s, n, p, q) && IsRoot(root, s, n) && 0.0 <= t < 1.0
    requires 0.0 <= p <= 1.0 && 0.0 < q
    ensures Z * root <= (p - t) + q * (1.0 - 2.0 * t) / 2.0
            <==> (t <= p && q * t * (1.0 - t) <= (p - t) * (p - t))
  {
    MarginSquared(s, n, root, p, q);
    MarginCompare(p, q, t, Z * root);
  }

  lemma MarginCompare(p: real, q: real, t: real, m: real)
    requires 0.0 <= p <= 1.0 && 0.0 < q && 0.0 <= t < 1.0 && 0.0 <= m
    requires m * m == q * (p * (1.0 - p) + q / 4.0)
    ensures m <= (p - t) + q * (1.0 - 2.0 * t) / 2.0
            <==> (t <= p && q * t * (1.0 - t) <= (p - t) * (p - t))
  {
    var a := (p - t) + q * (1.0 - 2.0 * t) / 2.0;
    if 0.0 <= a { SquareMono(m, a); }
    ThresholdCore(p, q, t);
  }

  /** The `max(0, .)` clamp never acts on exact reals. */
  lemma ClampIsRedundant(s: nat, n: nat, root: real)
    requires n > 0 && s <= n && IsRoot(root, s, n)
    ensures LowerBound(s, n, root) == Unclamped(s, n, root) >= 0.0
  {
    UnclampedThreshold(s, n, root, 0.0);
  }

  /** THE threshold theorem: the bound is at least `t` exactly when
      s >= n t and (s - n t)^2 >= z^2 n t (1 - t). */
  lemma Threshold(s: nat, n: nat, root: real, t: real)
    requires n > 0 && s <= n && IsRoot(root, s, n) && 0.0 <= t < 1.0
    ensures t <= LowerBound(s, n, root) <==> AtLeast(s, n, t)
  {
    ClampIsRedundant(s, n, root);
    UnclampedThreshold(s, n, root, t);
  }

  /** The bound lies in [0, s/n], below 1, and is 0 only without a success. */
  lemma Range(s: nat, n: nat, root: real)
    requires n > 0 && s <= n && IsRoot(root, s, n)
    ensures 0.0 <= LowerBound(s, n, root) <= s as real / n as real
    ensures LowerBound(s, n, root) < 1.0
    ensures LowerBound(s, n, root) == 0.0 <==> s == 0
  {
    ClampIsRedundant(s, n, root);
    BelowOne(s, n, root);
    AtMostProportion(s, n, root);
    if s > 0 { PositiveBound(s, n, root); }
  }

  lemma AtMostProportion(s: nat, n: nat, root: real)
    requires n > 0 && s <= n && IsRoot(root, s, n)
    requires 0.0 <= LowerBound(s, n, root) < 1.0
    ensures LowerBound(s, n, root) <= s as real / n as real
  {
    var N := n as real;
    var lb := LowerBound(s, n, root);
    Threshold(s, n, root, lb);
    assert s as real / N * N == s as real;
    CancelPositive(lb, s as real / N, N);
  }

  lemma BelowOne(s: nat, n: nat, root: real)
    requires n > 0 && s <= n && IsRoot(root, s, n)
    ensures Unclamped(s, n, root) < 1.0
  {
    var N := n as real;
    var p := s as real / N;
    var q := Z * Z / N;
    ProportionInUnit(s, n);
    DivPositive(Z * Z, N);
    UnclampedVersusGap(s, n, root, 1.0, p, q);
    assert (p - 1.0) + q * (1.0 - 2.0) / 2.0 < 0.0;
    assert 0.0 <= Z * root;
  }

  /** The right-hand side of `AtLeast`, regrouped. */
  lemma Spread(N: real, t: real)
    ensures Z * Z * N * t * (1.0 - t) == (Z * Z * t) * (N * (1.0 - t))
    ensures Z * Z * N * t * (1.0 - t) == (Z * Z * (N * t)) * (1.0 - t)
  {}

  /** One success already reaches the threshold t with n t = 1/20. */
  lemma SmallThreshold(s: nat, n: nat, t: real)
    requires 0 < s <= n && n as real * t == 0.05 && 0.0 < t
    ensures t < 1.0 && AtLeast(s, n, t)
  {
    var N := n as real;
    MulMono(1.0, N, t);
    Spread(N, t);
    var x := s as real - N * t;
    SquareMono(0.95, x);
  }

  lemma PositiveBound(s: nat, n: nat, root: real)
    requires 0 < s <= n && IsRoot(root, s, n)
    ensures 0.0 < LowerBound(s, n, root)
  {
    var t := 0.05 / n as real;
    DivPositive(0.05, n as real);
    assert n as real * t == 0.05;
    SmallThreshold(s, n, t);
    Threshold(s, n, root, t);
  }

  // ---------- monotonicity ----------

  /** One more success keeps every threshold already reached. */
  lemma AtLeastSuccess(s: nat, n: nat, t: real)
    requires s <= n && 0 < n && 0.0 <= t < 1.0 && AtLeast(s, n, t)
    ensures AtLeast(s + 1, n + 1, t)
  {
    var N := n as real;
    var x := s as real - N * t;
    var c := 1.0 - t;
    Spread(N, t);
    SuccessStep(x, c, Z * Z * t, N);
    SuccessGrows(x, c, Z * Z * t, N);
    Spread(N + 1.0, t);
    NextCount(s, n, t);
  }

  lemma NextCount(s: nat, n: nat, t: real)
    ensures (s + 1) as real - (n + 1) as real * t == (s as real - n as real * t) + (1.0 - t)
    ensures (n + 1) as real == n as real + 1.0
  {}

  lemma SuccessGrows(x: real, c: real, zt: real, N: real)
    requires zt * (N * c) <= x * x && zt * c <= 2.0 * (x * c) + c * c
    ensures zt * ((N + 1.0) * c) <= (x + c) * (x + c)
  {
    assert (N + 1.0) * c == N * c + c;
    assert zt * (N * c + c) == zt * (N * c) + zt * c;
    assert (x + c) * (x + c) == x * x + 2.0 * (x * c) + c * c;
  }

  lemma SuccessStep(x: real, c: real, zt: real, N: real)
    requires 0.0 <= x <= N * c && 0.0 < c && 0.0 <= zt && 1.0 <= N
    requires zt * (N * c) <= x * x
    ensures zt * c <= 2.0 * (x * c) + c * c
  {
    MulPositive(N, c);
    if x == 0.0 {
      ProductZero(zt, N * c);
    } else {
      MulMono(x, N * c, zt);
      CancelPositive(zt, x, x);
    }
    assert zt <= x;
    MulMono(zt, x, c);
    MulNonneg(x, c);
    MulNonneg(c, c);
  }

  /** One more failure reaches no threshold that was not reached before. */
  lemma AtLeastFailure(s: nat, n: nat, t: real)
    requires s <= n && 0.0 <= t < 1.0 && AtLeast(s, n + 1, t)
    ensures AtLeast(s, n, t)
  {
    var N := n as real;
    var y := s as real - (n + 1) as real * t;
    var x := s as real - N * t;
    assert (n + 1) as real * t == N * t + t;
    assert x == y + t;
    SquareMono(y, x);
    var w := Z * Z * (t * (1.0 - t));
    MulNonneg(t, 1.0 - t);
    assert Z * Z * N * t * (1.0 - t) == w * N;
    assert Z * Z * (n + 1) as real * t * (1.0 - t) == w * N + w;
  }

  // ---------- the bound without its root ----------

  /** `lb` is the bound, said by the thresholds it reaches. */
  ghost predicate IsBound(lb: real, s: nat, n: nat) {
    && 0.0 <= lb < 1.0
    && (n == 0 ==> lb == 0.0)
    && (n > 0 ==> forall t :: 0.0 <= t < 1.0 ==> (t <= lb <==> AtLeast(s, n, t)))
  }

  /** The thresholds say exactly what the formula computes. */
  lemma BoundIsLowerBound(lb: real, s: nat, n: nat, root: real)
    requires s <= n && IsRoot(root, s, n)
    ensures IsBound(lb, s, n) <==> lb == LowerBound(s, n, root)
  {
    if n > 0 {
      FormulaIsBound(s, n, root);
      if IsBound(lb, s, n) { BoundIsUnique(lb, LowerBound(s, n, root), s, n); }
    }
  }

  lemma FormulaIsBound(s: nat, n: nat, root: real)
    requires 0 < n && s <= n && IsRoot(root, s, n)
    ensures IsBound(LowerBound(s, n, root), s, n)
  {
    Range(s, n, root);
    var lb := LowerBound(s, n, root);
    forall t | 0.0 <= t < 1.0 ensures t <= lb <==> AtLeast(s, n, t) {
      Threshold(s, n, root, t);
    }
  }

  lemma BoundIsUnique(a: real, b: real, s: nat, n: nat)
    requires IsBound(a, s, n) && IsBound(b, s, n)
    ensures a == b
  {
    if n > 0 { assert AtLeast(s, n, a) && AtLeast(s, n, b); }
  }

  /** A threshold the bound reaches is at most the proportion. */
  lemma ReachedBelowProportion(lb: real, t: real, s: nat, n: nat)
    requires IsBound(lb, s, n) && 0.0 <= t <= lb
    ensures t * n as real <= s as real
  {
    if n > 0 {
      assert AtLeast(s, n, t);
      assert n as real * t == t * n as real;
    }
  }

  /** One more clean approval never lowers the bound. */
  lemma SuccessNeverLowers(s: nat, n: nat, lb: real, lb': real)
    requires s <= n && IsBound(lb, s, n) && IsBound(lb', s + 1, n + 1)
    ensures lb <= lb'
  {
    if n > 0 {
      assert AtLeast(s, n, lb);
      AtLeastSuccess(s, n, lb);
    }
  }

  /** One more decision that is not clean never raises it. */
  lemma FailureNeverRaises(s: nat, n: nat, lb: real, lb': real)
    requires s <= n && IsBound(lb, s, n) && IsBound(lb', s, n + 1)
    ensures lb' <= lb
  {
    assert AtLeast(s, n + 1, lb');
    if n > 0 {
      AtLeastFailure(s, n, lb');
    } else {
      NothingBoundsAtZero(lb');
    }
  }

  lemma NothingBoundsAtZero(lb: real)
    requires 0.0 <= lb && AtLeast(0, 1, lb)
    ensures lb == 0.0
  {}
}
