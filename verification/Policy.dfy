/** The deterministic policy engine (earned_autonomy/core/policy.py). */
module Policy {
  import opened Options
  import opened JsonValues
  import opened Ontology
  import opened Models
  import opened Conditions

  datatype BoundaryRule = BoundaryRule(
    name: string,
    authorityClasses: seq<AuthorityClass>,
    metadataConditions: seq<Field>,
    status: AutonomyStatus,
    risk: RiskLevel,
    approverRole: Option<string>)

  datatype Decision = Decision(
    status: AutonomyStatus,
    risk: RiskLevel,
    policyName: Option<string>,
    approverRole: Option<string>,
    sampleRate: real,
    ceiling: Level,
    triggered: seq<string>)

  predicate BoundaryMatches(b: BoundaryRule, e: Event) {
    && (b.authorityClasses == [] || e.authority in b.authorityClasses)
    && forall i :: 0 <= i < |b.metadataConditions| ==>
         PyEq(Get(e.metadata, b.metadataConditions[i].key), b.metadataConditions[i].value)
  }

  function FirstBoundary(bs: seq<BoundaryRule>, e: Event): Option<BoundaryRule> {
    if bs == [] then None
    else if BoundaryMatches(bs[0], e) then Some(bs[0])
    else FirstBoundary(bs[1..], e)
  }

  /** A rule grants only to its own scope, while active, under its conditions. */
  function RuleMatches(r: Rule, e: Event): Check {
    if !r.active || r.workflowId != e.workflowId || r.agentId != e.agentId || r.authority != e.authority then No
    else CheckAll(r.conditions, e.metadata)
  }

  predicate FromRule(level: Level, rule: Option<Rule>) {
    rule.Some? && rule.value.level > level
  }

  function Effective(e: Event, level: Level, rule: Option<Rule>): Level {
    MinLevel(if FromRule(level, rule) then rule.value.level else level, Ceiling(e.authority))
  }

  function SampleRate(rule: Option<Rule>): real {
    if rule.Some? then rule.value.sampleRate else 0.0
  }

  /** What each rung means for an event. */
  function StatusForLevel(e: Event, effective: Level, rule: Option<Rule>): (AutonomyStatus, real) {
    if NonState(e.authority) && !e.requiresExecution then (Allowed, 0.0)
    else if effective == DELEGATED_AUTHORITY then
      if Get(e.metadata, "anomaly") == TRUE then (Escalate, 0.0)
      else (Allowed, if SampleRate(rule) < 0.05 then 0.05 else SampleRate(rule))
    else if effective == EXCEPTION_BASED_SUPERVISION then
      if Get(e.metadata, "anomaly") == TRUE then (Escalate, 0.0) else (Allowed, 0.0)
    else if effective == CONDITIONAL_AUTONOMY then (Allowed, 0.0)
    else if effective == EXECUTE_WITH_SAMPLING then
      (SampleReview, if SampleRate(rule) == 0.0 then 0.2 else SampleRate(rule))
    else if effective <= DRAFT then
      if e.requiresExecution then (ApprovalRequired, 0.0) else (Allowed, 0.0)
    else (ApprovalRequired, 0.0)
  }

  /** The decision; None is a TypeError out of a guard. */
  function Evaluate(boundaries: seq<BoundaryRule>, e: Event, level: Level, risk: RiskLevel, rule: Option<Rule>)
    : Option<Decision>
  {
    var ceiling := Ceiling(e.authority);
    match FirstBoundary(boundaries, e)
    case Some(b) =>
      Some(Decision(b.status, MaxRisk(risk, b.risk), Some(b.name), b.approverRole, 0.0, ceiling, []))
    case None =>
      if FromRule(level, rule) then
        match Triggered(rule.value.requiresApprovalIf, e)
        case None => None
        case Some(fired) =>
          if fired != [] then
            Some(Decision(ApprovalRequired, risk, Some(rule.value.ruleName), None, 0.0, ceiling, fired))
          else
            var s := StatusForLevel(e, Effective(e, level, rule), rule);
            Some(Decision(s.0, risk, Some(rule.value.ruleName), None, s.1, ceiling, []))
      else
        var s := StatusForLevel(e, Effective(e, level, rule), rule);
        Some(Decision(s.0, risk, None, None, s.1, ceiling, []))
  }

  /** `evaluate`, with the guards evaluated by their loop. */
  method EvaluateEvent(boundaries: seq<BoundaryRule>, e: Event, level: Level, risk: RiskLevel, rule: Option<Rule>)
    returns (d: Option<Decision>)
    ensures d == Evaluate(boundaries, e, level, risk, rule)
  {
    var ceiling := Ceiling(e.authority);
    var boundary := FirstBoundary(boundaries, e);
    if boundary.Some? {
      var b := boundary.value;
      return Some(Decision(b.status, MaxRisk(risk, b.risk), Some(b.name), b.approverRole, 0.0, ceiling, []));
    }
    var policyName := None;
    if FromRule(level, rule) {
      policyName := Some(rule.value.ruleName);
      var raised, fired := EvaluateGuards(rule.value.requiresApprovalIf, e);
      if raised {
        return None;
      }
      if fired != [] {
        return Some(Decision(ApprovalRequired, risk, policyName, None, 0.0, ceiling, fired));
      }
    }
    var s := StatusForLevel(e, Effective(e, level, rule), rule);
    return Some(Decision(s.0, risk, policyName, None, s.1, ceiling, []));
  }

  /** The decisions that come with a capability token. */
  predicate Grants(s: AutonomyStatus) {
    s == Allowed || s == SampleReview
  }

  const DEFAULT_BOUNDARIES: seq<BoundaryRule> := [
    BoundaryRule("Block legal position changes", [ChangeLegalPosition, BindOrganization], [],
                 Blocked, Critical, Some("legal_admin")),
    BoundaryRule("Value transfer and spend require escalation", [TransferValue, SpendMoney], [],
                 Escalate, Critical, Some("finance_admin")),
    BoundaryRule("Pricing and discounts require approval", [OfferPricingOrDiscount, CommitCommercialPosition], [],
                 ApprovalRequired, High, Some("commercial_owner")),
    BoundaryRule("Production and deletion require escalation", [DeleteData, ModifyProductionSystem], [],
                 Escalate, Critical, Some("system_admin")),
    BoundaryRule("Access changes require approval", [GrantAccess, RevokeAccess], [],
                 ApprovalRequired, High, Some("security_admin"))]

  /** Boundaries can be configured; none may itself be the thing that grants. */
  ghost predicate NoGrantingBoundary(bs: seq<BoundaryRule>) {
    forall b :: b in bs ==> !Grants(b.status)
  }

  lemma {:induction false} FirstBoundaryFound(bs: seq<BoundaryRule>, e: Event)
    ensures FirstBoundary(bs, e).Some? <==> exists b :: b in bs && BoundaryMatches(b, e)
    ensures FirstBoundary(bs, e).Some? ==> FirstBoundary(bs, e).value in bs && BoundaryMatches(FirstBoundary(bs, e).value, e)
  {
    if bs != [] {
      FirstBoundaryFound(bs[1..], e);
      assert bs == [bs[0]] + bs[1..];
    }
  }

  /** A boundary without metadata conditions matches by class alone. */
  lemma PlainBoundary(i: nat, e: Event)
    requires i < 5
    ensures BoundaryMatches(DEFAULT_BOUNDARIES[i], e) <==> e.authority in DEFAULT_BOUNDARIES[i].authorityClasses
    ensures DEFAULT_BOUNDARIES[i] in DEFAULT_BOUNDARIES && !Grants(DEFAULT_BOUNDARIES[i].status)
    ensures forall a :: a in DEFAULT_BOUNDARIES[i].authorityClasses ==> BaseRisk(a) in {High, Critical}
  {}

  /** The default boundary of a class. */
  function DefaultIndex(a: AuthorityClass): nat {
    match a
    case ChangeLegalPosition | BindOrganization => 0
    case TransferValue | SpendMoney => 1
    case OfferPricingOrDiscount | CommitCommercialPosition => 2
    case DeleteData | ModifyProductionSystem => 3
    case _ => 4
  }

  lemma DefaultBoundariesAreRisky(b: BoundaryRule, e: Event)
    requires b in DEFAULT_BOUNDARIES
    ensures !Grants(b.status) && (BoundaryMatches(b, e) ==> BaseRisk(e.authority) in {High, Critical})
  {
    var i :| 0 <= i < |DEFAULT_BOUNDARIES| && DEFAULT_BOUNDARIES[i] == b;
    PlainBoundary(i, e);
  }

  lemma RiskyHasDefault(e: Event)
    requires BaseRisk(e.authority) in {High, Critical}
    ensures DEFAULT_BOUNDARIES[DefaultIndex(e.authority)] in DEFAULT_BOUNDARIES
    ensures BoundaryMatches(DEFAULT_BOUNDARIES[DefaultIndex(e.authority)], e)
  {
    PlainBoundary(DefaultIndex(e.authority), e);
    assert e.authority in DEFAULT_BOUNDARIES[DefaultIndex(e.authority)].authorityClasses;
  }

  /** The default boundaries stop exactly the classes of high and critical base risk. */
  lemma DefaultBoundariesCover(e: Event)
    ensures FirstBoundary(DEFAULT_BOUNDARIES, e).Some? <==> BaseRisk(e.authority) in {High, Critical}
    ensures NoGrantingBoundary(DEFAULT_BOUNDARIES)
  {
    var d := DEFAULT_BOUNDARIES;
    FirstBoundaryFound(d, e);
    forall b | b in d
      ensures !Grants(b.status) && (BoundaryMatches(b, e) ==> BaseRisk(e.authority) in {High, Critical})
    {
      DefaultBoundariesAreRisky(b, e);
    }
    if BaseRisk(e.authority) in {High, Critical} { RiskyHasDefault(e); }
  }

  /** Each class of high or critical risk is in one default boundary; the decision never grants. */
  lemma DefaultsNeverGrant(e: Event, level: Level, risk: RiskLevel, rule: Option<Rule>)
    requires BaseRisk(e.authority) in {High, Critical}
    ensures var d := Evaluate(DEFAULT_BOUNDARIES, e, level, risk, rule);
            d.Some? && !Grants(d.value.status)
  {
    DefaultBoundariesCover(e);
    FirstBoundaryFound(DEFAULT_BOUNDARIES, e);
  }

  /** An execution request is granted only from level 4, within the ceiling, on a clear rule unless
      the stored level alone reaches 4. */
  lemma ExecutionNeedsLevelFour(bs: seq<BoundaryRule>, e: Event, level: Level, risk: RiskLevel, rule: Option<Rule>)
    requires NoGrantingBoundary(bs) && e.requiresExecution
    requires var d := Evaluate(bs, e, level, risk, rule); d.Some? && Grants(d.value.status)
    ensures FirstBoundary(bs, e).None?
    ensures EXECUTE_WITH_SAMPLING <= Effective(e, level, rule) <= Ceiling(e.authority)
    ensures level < EXECUTE_WITH_SAMPLING ==>
              rule.Some? && rule.value.level >= EXECUTE_WITH_SAMPLING
              && Triggered(rule.value.requiresApprovalIf, e) == Some([])
    ensures BaseRisk(e.authority) != Critical
  {
    FirstBoundaryFound(bs, e);
    CeilingByRisk(e.authority);
  }

  /** At or above the ceiling a higher stored level changes no decision. */
  lemma CeilingIsFinal(bs: seq<BoundaryRule>, e: Event, low: Level, high: Level, risk: RiskLevel)
    requires Ceiling(e.authority) <= low <= high
    ensures Evaluate(bs, e, low, risk, None) == Evaluate(bs, e, high, risk, None)
  {}
}
