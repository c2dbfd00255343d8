/** The recommendation engine (earned_autonomy/core/recommendations.py), over exact reals. */
module Recommendations {
  import opened Options
  import opened JsonValues
  import opened Ontology
  import opened Models
  import opened Trust
  import Wilson

  /** Decisions required before a step; 10**9 stands for never. The source compares it with all
      decisions, not only the clean ones. */
  function Samples(risk: RiskLevel, row: Level): nat
    requires EXECUTE_WITH_SAMPLING <= row
  {
    match risk
    case Low => if row == 4 then 8 else if row == 5 then 20 else if row == 6 then 50 else 120
    case Medium => if row == 4 then 20 else if row == 5 then 60 else if row == 6 then 150 else 400
    case High => if row == 4 then 60 else if row == 5 then 200 else 1_000_000_000
    case Critical => 1_000_000_000
  }

  /** Required lower bound on the clean-approval rate. */
  function Threshold(row: Level): real
    requires EXECUTE_WITH_SAMPLING <= row
  {
    if row == 4 then 0.80 else if row == 5 then 0.88 else if row == 6 then 0.93 else 0.95
  }

  function MaxEditRate(row: Level): real
    requires EXECUTE_WITH_SAMPLING <= row
  {
    if row == 4 then 0.20 else if row == 5 then 0.10 else if row == 6 then 0.05 else 0.03
  }

  /** The library's Wilson bound, as a function of successes and trials. */
  type Bound = (nat, nat) -> real

  ghost predicate IsWilson(bound: Bound) {
    forall s: nat, n: nat {:trigger bound(s, n)} :: s <= n ==> Wilson.IsBound(bound(s, n), s, n)
  }

  /** The formula with the true square roots is such a bound. */
  lemma FormulaIsWilson(roots: Bound)
    requires forall s: nat, n: nat :: s <= n ==> Wilson.IsRoot(roots(s, n), s, n)
    ensures IsWilson((s: nat, n: nat) => Wilson.LowerBound(s, n, roots(s, n)))
  {
    forall s: nat, n: nat | s <= n ensures Wilson.IsBound(Wilson.LowerBound(s, n, roots(s, n)), s, n) {
      Wilson.BoundIsLowerBound(Wilson.LowerBound(s, n, roots(s, n)), s, n, roots(s, n));
    }
  }

  /** `clean_approval_lower_bound`. */
  function Signal(s: Stats, bound: Bound): real {
    bound(s.clean, s.Total())
  }

  /** The trust signal: the Wilson bound on the clean-approval rate. */
  ghost predicate IsSignal(signal: real, s: Stats) {
    Wilson.IsBound(signal, s.clean, s.Total())
  }

  /** The evidence supports a row of the ladder. */
  predicate RowPasses(risk: RiskLevel, row: Level, s: Stats, signal: real)
    requires EXECUTE_WITH_SAMPLING <= row
  {
    s.Total() >= Samples(risk, row) && signal >= Threshold(row) && s.EditRate() <= MaxEditRate(row)
  }

  predicate RejectionGate(risk: RiskLevel, s: Stats) {
    s.Total() >= Samples(risk, EXECUTE_WITH_SAMPLING) && s.RejectionRate() >= 0.25
  }

  /** The highest supported row at or below the ceiling, among the rows up to `top`. */
  function BestRow(a: AuthorityClass, s: Stats, signal: real, top: nat): Option<Level>
    requires top <= 7
  {
    if top < EXECUTE_WITH_SAMPLING then None
    else if top <= Ceiling(a) && RowPasses(BaseRisk(a), top, s, signal) then Some(top)
    else BestRow(a, s, signal, top - 1)
  }

  function Recommended(a: AuthorityClass, current: Level, s: Stats, signal: real): Level {
    if s.incidents > 0 || RejectionGate(BaseRisk(a), s) then
      MinLevel(MinLevel(current, EXECUTE_WITH_APPROVAL), Ceiling(a))
    else
      match BestRow(a, s, signal, 7)
      case None => MinLevel(current, Ceiling(a))
      case Some(row) => MinLevel(MaxLevel(current, row), Ceiling(a))
  }

  datatype Recommendation = Recommendation(
    scope: Scope,
    current: Level,
    recommended: Level,
    confidence: real,
    ceiling: Level,
    proposedRule: Option<Rule>,
    requiresSecondApprover: bool)

  const PROPOSED_GUARDS: seq<string> := [
    "missing_source_evidence", "low_confidence", "external_effect", "irreversible",
    "anomaly_detected", "policy_boundary_matched"]

  /** The rule a relaxation comes with; `ruleId` is a fresh id. */
  function ProposedRule(scope: Scope, level: Level, ruleId: string): Rule {
    Rule(ruleId, "Suggested", scope.workflowId, scope.agentId, scope.authority, level,
         [Field("evidence_required", Bool(true))], PROPOSED_GUARDS,
         if level >= EXECUTE_WITH_SAMPLING then 0.2 else 0.0, true, None, None)
  }

  function Finalize(scope: Scope, current: Level, recommended: Level, confidence: real, ruleId: string)
    : Recommendation
  {
    var ceiling := Ceiling(scope.authority);
    var level := MinLevel(recommended, ceiling);
    var raises := level > current;
    Recommendation(scope, current, level, confidence, ceiling,
                   if raises then Some(ProposedRule(scope, level, ruleId)) else None,
                   raises && RequiresSeparationOfDuties(scope.authority))
  }

  /** The recommendation as a function of the evidence. */
  function RecommendationFor(scope: Scope, current: Level, s: Stats, signal: real, ruleId: string): Recommendation {
    var risk := BaseRisk(scope.authority);
    var confidence :=
      if s.incidents > 0 then 0.99
      else if RejectionGate(risk, s) then (if s.RejectionRate() < 0.9 then s.RejectionRate() else 0.9)
      else signal;
    Finalize(scope, current, Recommended(scope.authority, current, s, signal), confidence, ruleId)
  }

  /** The engine as its callers see it. */
  type Engine = (Scope, Level, Stats) -> Recommendation

  /** The engine recommends by the evidence, with the trust signal and some rule id. */
  ghost predicate IsEngine(engine: Engine) {
    forall k, level, s :: FromEvidence(engine(k, level, s), k, level, s)
  }

  ghost predicate FromEvidence(r: Recommendation, k: Scope, level: Level, s: Stats) {
    exists signal, ruleId :: IsSignal(signal, s) && r == RecommendationFor(k, level, s, signal, ruleId)
  }

  /** The engine answers by this bound and this fresh rule id. */
  ghost predicate Recommends(engine: Engine, bound: Bound, ruleId: string) {
    forall k, level, s {:trigger RecommendationFor(k, level, s, Signal(s, bound), ruleId)} ::
      engine(k, level, s) == RecommendationFor(k, level, s, Signal(s, bound), ruleId)
  }

  /** With the Wilson bound that is the engine. */
  lemma WilsonEngine(engine: Engine, bound: Bound, ruleId: string)
    requires IsWilson(bound) && Recommends(engine, bound, ruleId)
    ensures IsEngine(engine)
  {
    forall k, level, s ensures FromEvidence(engine(k, level, s), k, level, s) {
      assert IsSignal(Signal(s, bound), s);
      assert engine(k, level, s) == RecommendationFor(k, level, s, Signal(s, bound), ruleId);
    }
  }

  const LADDER: seq<Level> := [
    DELEGATED_AUTHORITY, EXCEPTION_BASED_SUPERVISION, CONDITIONAL_AUTONOMY, EXECUTE_WITH_SAMPLING]

  /** `recommend`: walks the ladder from the top and takes the first supported row. */
  method Recommend(scope: Scope, current: Level, s: Stats, bound: Bound, ruleId: string)
    returns (r: Recommendation)
    ensures r == RecommendationFor(scope, current, s, Signal(s, bound), ruleId)
  {
    var signal := bound(s.clean, s.Total());
    var a := scope.authority;
    var risk, ceiling := BaseRisk(a), Ceiling(a);
    if s.incidents > 0 {
      return Finalize(scope, current, MinLevel(current, EXECUTE_WITH_APPROVAL), 0.99, ruleId);
    }
    if s.Total() >= Samples(risk, EXECUTE_WITH_SAMPLING) && s.RejectionRate() >= 0.25 {
      var confidence := if s.RejectionRate() < 0.9 then s.RejectionRate() else 0.9;
      return Finalize(scope, current, MinLevel(current, EXECUTE_WITH_APPROVAL), confidence, ruleId);
    }
    var recommended := current;
    for i := 0 to |LADDER|
      invariant recommended == current
      invariant BestRow(a, s, signal, 7) == BestRow(a, s, signal, 7 - i)
    {
      var level := LADDER[i];
      assert level == 7 - i;
      if level <= ceiling && RowPasses(risk, level, s, signal) {
        recommended := MaxLevel(current, level);
        break;
      }
    }
    r := Finalize(scope, current, recommended, signal, ruleId);
  }

  /** The same call, as an answer of the engine its caller names. */
  method Advise(scope: Scope, current: Level, s: Stats, bound: Bound, ruleId: string, ghost engine: Engine)
    returns (r: Recommendation)
    requires Recommends(engine, bound, ruleId)
    ensures r == engine(scope, current, s)
  {
    r := Recommend(scope, current, s, bound, ruleId);
  }
}
