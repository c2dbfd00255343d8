/** The earning loop closes: evidence becomes a recommendation, its rule is accepted and grants; an
    incident ends it. */
module EarningLoop {
  import opened Options
  import opened JsonValues
  import opened Ontology
  import opened Models
  import opened Conditions
  import opened Policy
  import opened PolicyProperties
  import opened Trust
  import opened Planes
  import opened Machine
  import Ceilings
  import R = Recommendations
  import P = RecommenderProperties

  // ---------- the proposed rule is accepted ----------

  /** A rule is only proposed from an execution row, at most at the ceiling, for the scope asked
      about, and never after an incident. */
  lemma ProposedLevel(scope: Scope, current: Level, s: Stats, signal: real, ruleId: string)
    ensures
      var r := R.RecommendationFor(scope, current, s, signal, ruleId);
      r.proposedRule.Some? ==>
        && s.incidents == 0
        && EXECUTE_WITH_SAMPLING <= r.proposedRule.value.level <= Ceiling(scope.authority)
        && current < r.proposedRule.value.level
        && RuleScope(r.proposedRule.value) == scope
        && (r.requiresSecondApprover <==> RequiresSeparationOfDuties(scope.authority))
  {
    P.BestRowIsBest(scope.authority, s, signal, 7);
  }

  /** Approving a proposed rule succeeds and stores it, unless it asks for a second approver and the
      owner of the registered agent approves. */
  lemma ProposedRuleAccepted(p: Plane, scope: Scope, current: Level, s: Stats, signal: real, ruleId: string, approver: string)
    ensures
      var r := R.RecommendationFor(scope, current, s, signal, ruleId);
      r.proposedRule.Some? ==>
        var rule := r.proposedRule.value;
        var answer := ApproveRule(p, rule, approver);
        && (answer.1.RuleStored? <==>
              !(r.requiresSecondApprover && scope.agentId in p.agents && approver == p.agents[scope.agentId].ownerId))
        && (answer.1.RuleStored? ==>
              ruleId in answer.0.rules && answer.0.rules[ruleId] == rule.(createdBy := Some(approver)))
  {
    ProposedLevel(scope, current, s, signal, ruleId);
  }

  /** The event passes one proposed guard. */
  predicate Passes(i: nat, e: Event) {
    match i
    case 0 => e.evidence != []
    case 1 => e.confidence >= 0.7
    case 2 => Get(e.metadata, "external_effect") != TRUE
    case 3 => Get(e.metadata, "irreversible") != TRUE
    case 4 => Get(e.metadata, "anomaly") != TRUE
    case _ => Get(e.metadata, "_policy_boundary_matched") != TRUE
  }

  /** What the proposed guards ask of an event. */
  predicate ClearOfGuards(e: Event) {
    forall i :: 0 <= i < |R.PROPOSED_GUARDS| ==> Passes(i, e)
  }

  lemma ProposedGuard(i: nat, e: Event)
    requires i < |R.PROPOSED_GUARDS|
    ensures Fires(R.PROPOSED_GUARDS[i], e) == if Passes(i, e) then No else Yes
  {}

  lemma ProposedGuardKnown(i: nat)
    requires i < |R.PROPOSED_GUARDS|
    ensures R.PROPOSED_GUARDS[i] in GUARDS
  {
    assert R.PROPOSED_GUARDS[i] == GUARDS[if i < 2 then i else i + 1];
  }

  lemma ProposedGuardsClear(e: Event)
    ensures Triggered(R.PROPOSED_GUARDS, e).Some?
    ensures Triggered(R.PROPOSED_GUARDS, e) == Some([]) <==> ClearOfGuards(e)
  {
    var g := R.PROPOSED_GUARDS;
    ClearMeansKnownAndQuiet(g, e);
    forall i | 0 <= i < 6 ensures g[i] in g && g[i] in GUARDS && Fires(g[i], e) == if Passes(i, e) then No else Yes {
      ProposedGuard(i, e);
      ProposedGuardKnown(i);
    }
    TriggeredAnswers(g, e);
    AllPass(g, e);
  }

  lemma AllPass(g: seq<string>, e: Event)
    requires |g| == 6
    requires forall i :: 0 <= i < 6 ==> g[i] in GUARDS && Fires(g[i], e) == if Passes(i, e) then No else Yes
    ensures (forall n :: n in g ==> n in GUARDS && Fires(n, e) == No) <==> (forall i :: 0 <= i < 6 ==> Passes(i, e))
  {
    assert forall i :: 0 <= i < 6 ==> g[i] in g;
  }

  lemma {:induction false} TriggeredAnswers(names: seq<string>, e: Event)
    requires forall n :: n in names ==> Fires(n, e) != Raises
    ensures Triggered(names, e).Some?
  {
    if names != [] {
      assert names[0] in names;
      TriggeredAnswers(names[1..], e);
    }
  }

  /** The earned rule does what it was earned for: consulted for an execution request outside every
      boundary, from a stored level below execution, it grants exactly when all its guards are clear,
      at level 4 with one action in five sampled, at level 7 with as many attested. */
  lemma ProposedRuleGrants(bs: seq<BoundaryRule>, e: Event, level: Level, risk: RiskLevel, rule: Rule, proposed: Level, ruleId: string)
    requires FirstBoundary(bs, e).None? && e.requiresExecution && level < EXECUTE_WITH_SAMPLING
    requires EXECUTE_WITH_SAMPLING <= proposed <= Ceiling(e.authority)
    requires rule.(createdBy := None) == R.ProposedRule(ScopeOf(e), proposed, ruleId)
    ensures
      var d := Evaluate(bs, e, level, risk, Some(rule));
      && d.Some? && (Grants(d.value.status) <==> ClearOfGuards(e))
      && d.value.status == (if !ClearOfGuards(e) then ApprovalRequired else if proposed == 4 then SampleReview else Allowed)
      && d.value.sampleRate == (if ClearOfGuards(e) && proposed in {4, 7} then 0.2 else 0.0)
  {
    ProposedGuardsClear(e);
    if ClearOfGuards(e) {
      assert Passes(4, e);
      ClearMeansKnownAndQuiet(rule.requiresApprovalIf, e);
      StatusByRung(bs, e, level, risk, Some(rule));
    }
  }

  /** It matches an active event of its scope exactly when the event says its evidence is there. */
  lemma ProposedRuleMatches(e: Event, rule: Rule, proposed: Level, ruleId: string)
    requires rule.(createdBy := None) == R.ProposedRule(ScopeOf(e), proposed, ruleId)
    ensures RuleMatches(rule, e) == Yes <==> PyEq(Get(e.metadata, "evidence_required"), Bool(true))
  {
    CheckAllMeansEach(rule.conditions, e.metadata);
    assert rule.conditions == [Field("evidence_required", Bool(true))];
    assert rule.conditions[0] in rule.conditions;
  }

  // ---------- an incident ends it ----------

  predicate HasIncident(m: Memory, k: Scope) {
    Read(m, k).incidents > 0
  }

  lemma StepKeepsIncident(cfg: Config, w: World, step: Step, k: Scope)
    requires LegalStep(cfg, w, step) && HasIncident(w.plane.memory, k)
    ensures HasIncident(Perform(cfg, w, step).plane.memory, k)
  {
    var p := w.plane;
    match step
    case DoSubmit(id, approver, o, engine) =>
      if id in p.events { ApplyCountsOnce(p.memory, ScopeOf(p.events[id]), id, o); }
    case DoPropose(e, around) => Ceilings.ProposeAgents(cfg, p, e, around);
    case _ =>
  }

  lemma {:induction false} RunKeepsIncident(cfg: Config, w: World, steps: seq<Step>, k: Scope)
    requires LegalRun(cfg, w, steps) && HasIncident(w.plane.memory, k)
    ensures HasIncident(RunOf(cfg, w, steps).plane.memory, k)
    decreases |steps|
  {
    if steps != [] {
      StepKeepsIncident(cfg, w, steps[0], k);
      RunKeepsIncident(cfg, Perform(cfg, w, steps[0]), steps[1..], k);
    }
  }

  /** A recommendation answer that proposes no rule. */
  predicate ProposesNothing(r: R.Recommendation) {
    r.proposedRule.None? && r.recommended <= EXECUTE_WITH_APPROVAL
  }

  /** Once a scope has an incident nothing in any later run proposes a rule for it: neither a
      recommendation asked for nor the one that follows a decision. */
  lemma NoProposalAfterIncident(cfg: Config, w: World, k: Scope, reason: string, steps: seq<Step>, engine: R.Engine)
    requires R.IsEngine(engine) && LegalRun(cfg, Perform(cfg, w, DoIncident(k, reason)), steps)
    ensures
      var p := RunOf(cfg, Perform(cfg, w, DoIncident(k, reason)), steps).plane;
      && (RecommendFor(p, k, engine).1.Some? ==> ProposesNothing(RecommendFor(p, k, engine).1.value))
      && (forall id, approver, o ::
            var r := Submit(p, id, approver, o, engine).1;
            r.DecisionCounted? && id in p.events && ScopeOf(p.events[id]) == k ==> ProposesNothing(r.rec))
  {
    var w1 := Perform(cfg, w, DoIncident(k, reason));
    RunKeepsIncident(cfg, w1, steps, k);
    var p := RunOf(cfg, w1, steps).plane;
    NothingWithIncident(p, k, engine);
    forall id, approver, o
      ensures var r := Submit(p, id, approver, o, engine).1;
              r.DecisionCounted? && id in p.events && ScopeOf(p.events[id]) == k ==> ProposesNothing(r.rec)
    {
      if id in p.events && ScopeOf(p.events[id]) == k && k.agentId in p.agents {
        ApplyCountsOnce(p.memory, k, id, o);
        NothingWithIncident(p.(memory := Apply(p.memory, k, id, o)), k, engine);
      }
    }
  }

  lemma NothingWithIncident(p: Plane, k: Scope, engine: R.Engine)
    requires R.IsEngine(engine) && HasIncident(p.memory, k)
    ensures k.agentId in p.agents ==> ProposesNothing(Planes.Recommendation(p, k, engine))
  {}
}
