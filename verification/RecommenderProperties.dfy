/** How recommendations follow the evidence. */
module RecommenderProperties {
  import opened Options
  import opened Ontology
  import opened Models
  import opened Trust
  import opened Recommendations
  import W = Wilson

  // ---------- rates ----------

  lemma RateAtMost(part: nat, whole: nat, bound: real)
    requires whole > 0
    ensures part as real / whole as real <= bound <==> part as real <= bound * whole as real
  {
    assert part as real / whole as real * whole as real == part as real;
    W.CancelPositive(part as real / whole as real, bound, whole as real);
  }

  lemma RateAtLeast(part: nat, whole: nat, bound: real)
    requires whole > 0
    ensures bound <= part as real / whole as real <==> bound * whole as real <= part as real
  {
    assert part as real / whole as real * whole as real == part as real;
    W.CancelPositive(bound, part as real / whole as real, whole as real);
  }

  /** A row only passes on a clean rate of at least 80%. */
  lemma PassedRowIsMostlyClean(risk: RiskLevel, row: Level, s: Stats, signal: real)
    requires EXECUTE_WITH_SAMPLING <= row && IsSignal(signal, s) && RowPasses(risk, row, s, signal)
    ensures s.Total() > 0 && 0.8 * s.Total() as real <= s.clean as real
  {
    W.ReachedBelowProportion(signal, 0.8, s.clean, s.Total());
  }

  /** The rejection gate and a passed ladder row exclude each other, so their order in the code
      does not matter. */
  lemma GateExcludesRows(risk: RiskLevel, row: Level, s: Stats, signal: real)
    requires EXECUTE_WITH_SAMPLING <= row && IsSignal(signal, s)
    ensures !(RejectionGate(risk, s) && RowPasses(risk, row, s, signal))
  {
    if RowPasses(risk, row, s, signal) {
      PassedRowIsMostlyClean(risk, row, s, signal);
      RateAtLeast(s.rejections, s.Total(), 0.25);
    }
  }

  // ---------- rejections and incidents ----------

  /** Decisions after which many rejections count. */
  function EnoughToReject(risk: RiskLevel): nat {
    match risk case Low => 8 case Medium => 20 case High => 60 case Critical => 1_000_000_000
  }

  /** Enough decisions, and a quarter of them or more rejected. */
  predicate OftenRejected(a: AuthorityClass, s: Stats) {
    s.Total() >= EnoughToReject(BaseRisk(a)) && 4 * s.rejections >= s.Total()
  }

  lemma GateIsOftenRejected(a: AuthorityClass, s: Stats)
    ensures RejectionGate(BaseRisk(a), s) <==> OftenRejected(a, s)
  {
    if s.Total() > 0 { RateAtLeast(s.rejections, s.Total(), 0.25); }
  }

  /** The share of rejections, at most 90%. */
  predicate RejectedShare(share: real, s: Stats) {
    if 10 * s.rejections >= 9 * s.Total() then share == 0.9 else share * s.Total() as real == s.rejections as real
  }

  lemma CappedRate(s: Stats)
    requires s.Total() > 0
    ensures RejectedShare(if s.RejectionRate() < 0.9 then s.RejectionRate() else 0.9, s)
  {
    RateAtLeast(s.rejections, s.Total(), 0.9);
    assert s.RejectionRate() * s.Total() as real == s.rejections as real;
  }

  /** Often rejected, or with an incident, an agent is recommended at most level 3 from whatever level
      it holds, and no rule. */
  lemma RejectionsAndIncidentsPin(scope: Scope, current: Level, s: Stats, signal: real, ruleId: string)
    requires s.incidents > 0 || OftenRejected(scope.authority, s)
    ensures
      var r := RecommendationFor(scope, current, s, signal, ruleId);
      && r.recommended <= EXECUTE_WITH_APPROVAL && r.proposedRule.None? && !r.requiresSecondApprover
      && (current <= r.recommended <==> current <= EXECUTE_WITH_APPROVAL && current <= Ceiling(scope.authority))
      && (r.recommended < current ==> r.recommended in {EXECUTE_WITH_APPROVAL, Ceiling(scope.authority)})
      && (s.incidents > 0 ==> r.confidence == 0.99)
      && (s.incidents == 0 ==> RejectedShare(r.confidence, s))
  {
    GateIsOftenRejected(scope.authority, s);
    if s.incidents == 0 { CappedRate(s); }
  }

  // ---------- the best row ----------

  /** `BestRow` is the highest row at or below the ceiling that passes. */
  lemma {:induction false} BestRowIsBest(a: AuthorityClass, s: Stats, signal: real, top: nat)
    requires top <= 7
    ensures
      match BestRow(a, s, signal, top)
      case None => forall row: Level :: EXECUTE_WITH_SAMPLING <= row <= top && row <= Ceiling(a) ==>
                     !RowPasses(BaseRisk(a), row, s, signal)
      case Some(best) =>
        && EXECUTE_WITH_SAMPLING <= best <= top && best <= Ceiling(a)
        && RowPasses(BaseRisk(a), best, s, signal)
        && forall row: Level :: best < row <= top && row <= Ceiling(a) ==>
             !RowPasses(BaseRisk(a), row, s, signal)
    decreases top
  {
    if top >= EXECUTE_WITH_SAMPLING { BestRowIsBest(a, s, signal, top - 1); }
  }

  /** The row is open to the class and the evidence supports it. */
  ghost predicate OpenRow(a: AuthorityClass, row: Level, s: Stats, signal: real) {
    EXECUTE_WITH_SAMPLING <= row <= Ceiling(a) && RowPasses(BaseRisk(a), row, s, signal)
  }

  /** Neither often rejected nor with an incident, an agent keeps its level up to the ceiling, or gets
      the highest supported row above it; the confidence is the trust signal. */
  lemma OtherwiseTheBestRow(scope: Scope, current: Level, s: Stats, signal: real, ruleId: string)
    requires s.incidents == 0 && !OftenRejected(scope.authority, s)
    ensures
      var r := RecommendationFor(scope, current, s, signal, ruleId);
      && r.confidence == signal
      && (forall row: Level :: OpenRow(scope.authority, row, s, signal) ==> row <= r.recommended)
      && r.recommended <= Ceiling(scope.authority)
      && (if current > Ceiling(scope.authority) then r.recommended == Ceiling(scope.authority)
          else r.recommended == current || (current < r.recommended && OpenRow(scope.authority, r.recommended, s, signal)))
  {
    GateIsOftenRejected(scope.authority, s);
    BestRowIsBest(scope.authority, s, signal, 7);
  }

  /** What a row asks for, in whole numbers. */
  lemma RowTerms(risk: RiskLevel, row: Level, s: Stats, signal: real)
    requires EXECUTE_WITH_SAMPLING <= row <= MaxAutonomy(risk)
    ensures
      var n, m := s.Total(), s.modified;
      RowPasses(risk, row, s, signal) <==>
      && (row == 4 ==> n >= EnoughToReject(risk) && signal >= 0.80 && 5 * m <= n)
      && (row == 5 ==> n >= (if risk == Low then 20 else 60) && signal >= 0.88 && 10 * m <= n)
      && (row == 6 ==> n >= 50 && signal >= 0.93 && 20 * m <= n)
      && (row == 7 ==> n >= 120 && signal >= 0.95 && 100 * m <= 3 * n)
  {
    if s.Total() > 0 { RateAtMost(s.modified, s.Total(), MaxEditRate(row)); }
  }

  /** Without incidents and from a level below execution, the recommendation is the best row, or the
      current level when no row passes; the rejection gate adds nothing. */
  lemma RecommendedIsBestRow(a: AuthorityClass, current: Level, s: Stats, signal: real)
    requires s.incidents == 0 && current <= EXECUTE_WITH_APPROVAL && IsSignal(signal, s)
    ensures Recommended(a, current, s, signal) ==
            match BestRow(a, s, signal, 7) { case None => MinLevel(current, Ceiling(a)) case Some(row) => row }
  {
    BestRowIsBest(a, s, signal, 7);
    var best := BestRow(a, s, signal, 7);
    if best.Some? { GateExcludesRows(BaseRisk(a), best.value, s, signal); }
  }

  /** Recommendations never exceed the ceiling, whatever the evidence. */
  lemma NeverAboveCeiling(scope: Scope, current: Level, s: Stats, signal: real, ruleId: string)
    ensures
      var r := RecommendationFor(scope, current, s, signal, ruleId);
      && r.scope == scope && r.current == current && r.ceiling == Ceiling(scope.authority)
      && r.recommended <= Ceiling(scope.authority)
      && (r.proposedRule.Some? <==> r.recommended > current)
      && (r.proposedRule.Some? ==> r.proposedRule.value.level == r.recommended
                                   && RuleScope(r.proposedRule.value) == scope)
      && (s.incidents > 0 ==> r.proposedRule.None?)
  {}

  // ---------- one more clean approval ----------

  /** A higher signal and one more clean approval keep a passed row. */
  lemma CleanKeepsRow(risk: RiskLevel, row: Level, s: Stats, signal: real, signal': real)
    requires EXECUTE_WITH_SAMPLING <= row && s.Total() > 0 && signal <= signal'
    requires RowPasses(risk, row, s, signal)
    ensures RowPasses(risk, row, s.(clean := s.clean + 1), signal')
  {
    var n, m := s.Total(), MaxEditRate(row);
    assert s.(clean := s.clean + 1).Total() == n + 1;
    RateAtMost(s.modified, n, m);
    RateAtMost(s.modified, n + 1, m);
    W.MulMono(n as real, (n + 1) as real, m);
  }

  /** Another clean approval never lowers the recommendation. */
  lemma CleanNeverLowers(a: AuthorityClass, current: Level, s: Stats, o: Outcome, signal: real, signal': real)
    requires s.incidents == 0 && current <= EXECUTE_WITH_APPROVAL && Clean(o)
    requires IsSignal(signal, s) && IsSignal(signal', Count(s, o))
    ensures Recommended(a, current, s, signal) <= Recommended(a, current, Count(s, o), signal')
  {
    var s' := Count(s, o);
    RecommendedIsBestRow(a, current, s, signal);
    RecommendedIsBestRow(a, current, s', signal');
    BestRowIsBest(a, s, signal, 7);
    BestRowIsBest(a, s', signal', 7);
    var best := BestRow(a, s, signal, 7);
    if best.Some? {
      PassedRowIsMostlyClean(BaseRisk(a), best.value, s, signal);
      W.SuccessNeverLowers(s.clean, s.Total(), signal, signal');
      CleanKeepsRow(BaseRisk(a), best.value, s, signal, signal');
    }
  }

  // ---------- one more decision that is not clean ----------

  /** The two ways a decision that is not clean can open a row, as seen before the decision: it
      completes the sample size, or it dilutes an edit rate that was the obstacle. */
  predicate OpensBy(risk: RiskLevel, row: Level, s: Stats, o: Outcome)
    requires EXECUTE_WITH_SAMPLING <= row
  {
    || s.Total() + 1 == Samples(risk, row)
    || (!o.ModifiedAndApproved? && s.EditRate() > MaxEditRate(row))
  }

  /** A row that passes after such a decision was closed before exactly when the decision opened it
      in one of the two ways. */
  lemma NonCleanOpensRow(risk: RiskLevel, row: Level, s: Stats, o: Outcome, signal: real, signal': real)
    requires EXECUTE_WITH_SAMPLING <= row && !Clean(o)
    requires IsSignal(signal, s) && IsSignal(signal', Count(s, o))
    requires RowPasses(risk, row, Count(s, o), signal')
    ensures !RowPasses(risk, row, s, signal) <==> OpensBy(risk, row, s, o)
  {
    var s' := Count(s, o);
    var n := s.Total();
    assert s'.Total() == n + 1 && s'.clean == s.clean;
    W.FailureNeverRaises(s.clean, n, signal, signal');
    assert s.modified <= n;
    if o.ModifiedAndApproved? {
      EditsOnlyGrow(s.modified, n, MaxEditRate(row));
    }
  }

  /** An edit raises the edit rate. */
  lemma EditsOnlyGrow(m: nat, n: nat, bound: real)
    requires m <= n && 0.0 <= bound < 1.0
    requires (m + 1) as real / (n + 1) as real <= bound
    ensures n > 0 && m as real / n as real <= bound
  {
    RateAtMost(m + 1, n + 1, bound);
    assert bound * (n + 1) as real == bound * n as real + bound;
    if n > 0 {
      RateAtMost(m, n, bound);
    }
  }

  /** Such a decision raises the recommendation exactly when it opens a row above everything that
      passed before. */
  lemma NonCleanRaisesOnlyByOpening(a: AuthorityClass, current: Level, s: Stats, o: Outcome, signal: real, signal': real)
    requires s.incidents == 0 && current <= EXECUTE_WITH_APPROVAL && !Clean(o)
    requires IsSignal(signal, s) && IsSignal(signal', Count(s, o))
    ensures
      var before := Recommended(a, current, s, signal);
      var after := Recommended(a, current, Count(s, o), signal');
      before < after <==>
      exists row: Level ::
        && EXECUTE_WITH_SAMPLING <= row <= Ceiling(a) && before < row
        && RowPasses(BaseRisk(a), row, Count(s, o), signal')
        && OpensBy(BaseRisk(a), row, s, o)
  {
    var s' := Count(s, o);
    RecommendedIsBestRow(a, current, s, signal);
    RecommendedIsBestRow(a, current, s', signal');
    BestRowIsBest(a, s, signal, 7);
    BestRowIsBest(a, s', signal', 7);
    forall row: Level | EXECUTE_WITH_SAMPLING <= row && RowPasses(BaseRisk(a), row, s', signal')
      ensures !RowPasses(BaseRisk(a), row, s, signal) <==> OpensBy(BaseRisk(a), row, s, o)
    {
      NonCleanOpensRow(BaseRisk(a), row, s, o, signal, signal');
    }
    var best := BestRow(a, s', signal', 7);
    if Recommended(a, current, s, signal) < Recommended(a, current, s', signal') {
      assert best.Some? && !RowPasses(BaseRisk(a), best.value, s, signal);
    }
  }

  /** 969 clean and 30 edited approvals, of whatever events. */
  function Edited(decided: seq<string>): Stats {
    Stats(969, 30, 0, 0, 0, 0, 0, decided)
  }

  /** The record once one more event is rejected. */
  function Rejecting(decided: seq<string>, eventId: string): Stats {
    Count(Edited(decided), Rejected).(decided := decided + [eventId])
  }

  /** An agent with 969 clean and 30 edited approvals is raised to delegated authority by a
      rejection: 30 edits in 999 decisions are too many, 30 in 1000 are not. No sample size is
      crossed. */
  lemma RejectionCanRaise(a: AuthorityClass, decided: seq<string>, eventId: string, signal: real, signal': real)
    requires BaseRisk(a) == Low
    requires IsSignal(signal, Edited(decided)) && IsSignal(signal', Rejecting(decided, eventId))
    ensures
      && Recommended(a, OBSERVE_ONLY, Edited(decided), signal) == EXCEPTION_BASED_SUPERVISION
      && Recommended(a, OBSERVE_ONLY, Rejecting(decided, eventId), signal') == DELEGATED_AUTHORITY
      && forall row: Level :: EXECUTE_WITH_SAMPLING <= row ==> Edited(decided).Total() + 1 != Samples(Low, row)
  {
    var s, s' := Edited(decided), Rejecting(decided, eventId);
    assert s.Total() == 999 && s'.Total() == 1000;
    assert 0.93 <= signal <==> W.AtLeast(969, 999, 0.93);
    assert 0.95 <= signal' <==> W.AtLeast(969, 1000, 0.95);
    RateAtMost(30, 999, 0.03);
    RateAtMost(30, 999, 0.05);
    RateAtMost(30, 1000, 0.03);
    RecommendedIsBestRow(a, OBSERVE_ONLY, s, signal);
    RecommendedIsBestRow(a, OBSERVE_ONLY, s', signal');
    BestRowIsBest(a, s, signal, 7);
    BestRowIsBest(a, s', signal', 7);
    assert RowPasses(Low, 6, s, signal) && !RowPasses(Low, 7, s, signal);
    assert RowPasses(Low, 7, s', signal');
  }

  // ---------- a spotless history ----------

  /** Nothing but clean approvals, of whatever events. */
  function AllClean(n: nat, decided: seq<string>): Stats {
    Stats(n, 0, 0, 0, 0, 0, 0, decided)
  }

  lemma SpotlessAlgebra(n: real, t: real)
    requires 0.0 < n && 0.0 <= t < 1.0
    ensures W.Z * W.Z * n * t * (1.0 - t) <= (n - n * t) * (n - n * t) <==> W.Z * W.Z * t <= n * (1.0 - t)
    ensures 0.0 <= n - n * t
  {
    var c := 1.0 - t;
    var y := n * c;
    W.MulPositive(n, c);
    assert n - n * t == y;
    assert W.Z * W.Z * n * t * c == (W.Z * W.Z * t) * y;
    W.CancelPositive(W.Z * W.Z * t, y, y);
  }

  /** With nothing but successes the bound reaches `t` once n (1 - t) >= z^2 t. */
  lemma SpotlessThreshold(n: nat, signal: real, t: real)
    requires n > 0 && W.IsBound(signal, n, n) && 0.0 <= t < 1.0
    ensures t <= signal <==> W.Z * W.Z * t <= n as real * (1.0 - t)
  {
    assert t <= signal <==> W.AtLeast(n, n, t);
    SpotlessAlgebra(n as real, t);
  }

  /** The level a spotless history of `n` decisions earns. */
  function EarnedAfter(a: AuthorityClass, n: nat): Level {
    if HardBlocked(a) then 0 else
      match BaseRisk(a)
      case Low => if n >= 120 then 7 else if n >= 52 then 6 else if n >= 29 then 5 else if n >= 16 then 4 else 0
      case Medium => if n >= 60 then 5 else if n >= 20 then 4 else 0
      case High => if n >= 60 then 4 else 0
      case Critical => 0
  }

  /** `k` is the first spotless count whose signal reaches the threshold of a row. */
  function FirstSpotless(row: Level): nat
    requires EXECUTE_WITH_SAMPLING <= row
  {
    if row == 4 then 16 else if row == 5 then 29 else if row == 6 then 52 else 73
  }

  lemma SpotlessSignal(row: Level, n: nat, signal: real)
    requires EXECUTE_WITH_SAMPLING <= row && W.IsBound(signal, n, n)
    ensures signal >= Threshold(row) <==> n >= FirstSpotless(row)
  {
    if n > 0 { SpotlessThreshold(n, signal, Threshold(row)); }
  }

  ghost predicate SpotlessSignalIs(n: nat, signal: real) {
    forall row: Level :: EXECUTE_WITH_SAMPLING <= row ==> (signal >= Threshold(row) <==> n >= FirstSpotless(row))
  }

  lemma SpotlessRow(a: AuthorityClass, row: Level, n: nat, decided: seq<string>, signal: real)
    requires EXECUTE_WITH_SAMPLING <= row <= Ceiling(a) && SpotlessSignalIs(n, signal)
    ensures RowPasses(BaseRisk(a), row, AllClean(n, decided), signal) <==> EarnedAfter(a, n) >= row
  {
    assert AllClean(n, decided).Total() == n && AllClean(n, decided).EditRate() == 0.0;
    assert signal >= Threshold(row) <==> n >= FirstSpotless(row);
  }

  lemma {:induction false} SpotlessBest(a: AuthorityClass, n: nat, decided: seq<string>, signal: real, top: nat)
    requires top <= 7 && SpotlessSignalIs(n, signal) && (EarnedAfter(a, n) <= top || top < EXECUTE_WITH_SAMPLING)
    ensures BestRow(a, AllClean(n, decided), signal, top) ==
            if EXECUTE_WITH_SAMPLING <= EarnedAfter(a, n) <= top then Some(EarnedAfter(a, n)) else None
    decreases top
  {
    if top >= EXECUTE_WITH_SAMPLING {
      if top <= Ceiling(a) { SpotlessRow(a, top, n, decided, signal); }
      if EarnedAfter(a, n) < top { SpotlessBest(a, n, decided, signal, top - 1); }
    }
  }

  /** From the bottom of the ladder a spotless history earns exactly these levels: 16, 29, 52 and 120
      decisions for low risk, 20 and 60 for medium, 60 for high, nothing for critical. */
  lemma SpotlessBreakpoints(a: AuthorityClass, n: nat, decided: seq<string>, signal: real)
    requires W.IsBound(signal, n, n)
    ensures Recommended(a, OBSERVE_ONLY, AllClean(n, decided), signal) == EarnedAfter(a, n)
  {
    assert AllClean(n, decided).Total() == n;
    assert SpotlessSignalIs(n, signal) by {
      forall row: Level | EXECUTE_WITH_SAMPLING <= row
        ensures signal >= Threshold(row) <==> n >= FirstSpotless(row)
      {
        SpotlessSignal(row, n, signal);
      }
    }
    RecommendedIsBestRow(a, OBSERVE_ONLY, AllClean(n, decided), signal);
    SpotlessBest(a, n, decided, signal, 7);
  }
}
