/** Ceilings beat trust, and every execution grant comes from a live rule: over whole runs, from any
    starting point. */
module Ceilings {
  import opened Options
  import JsonValues
  import opened Ontology
  import opened Models
  import opened Conditions
  import opened Policy
  import opened Capabilities
  import opened Planes
  import opened Machine
  import opened Provenance

  /** The decision a proposal ends in, if it gets that far. */
  function ProposalDecision(cfg: Config, p: Plane, e: Event, around: Around): Option<Decision> {
    var p1 := Enrolled(cfg, p, e);
    if Refuses(cfg, p1, e).Some? then None else DecisionOn(cfg, Accept(p1, e), e, around)
  }

  function ProposalGrant(cfg: Config, p: Plane, e: Event, around: Around): Grant
    requires TtlFits(cfg, around.now) && ProposalDecision(cfg, p, e, around).Some?
  {
    NewGrant(cfg, Accept(Enrolled(cfg, p, e), e), e, ProposalDecision(cfg, p, e, around).value.status, around)
  }

  predicate ProposalGrants(cfg: Config, p: Plane, e: Event, around: Around) {
    var d := ProposalDecision(cfg, p, e, around);
    d.Some? && Grants(d.value.status)
  }

  /** A proposal mints one token or none. */
  lemma ProposeMints(cfg: Config, p: Plane, e: Event, around: Around)
    requires TtlFits(cfg, around.now)
    ensures Propose(cfg, p, e, around).0.grants ==
            if ProposalGrants(cfg, p, e, around) then p.grants + [ProposalGrant(cfg, p, e, around)] else p.grants
  {}

  /** No other step mints. */
  lemma OnlyProposalsMint(cfg: Config, w: World, step: Step)
    requires LegalStep(cfg, w, step) && !step.DoPropose?
    ensures Perform(cfg, w, step).plane.grants == w.plane.grants
  {}

  // ---------- ceilings ----------

  /** What no history lifts: no critical execution request has a token, and under the default
      boundaries no token is for a class of high or critical base risk. */
  ghost predicate WithinCeiling(cfg: Config, g: Grant) {
    && g.token.authority == g.event.authority
    && (g.event.requiresExecution ==> BaseRisk(g.event.authority) != Critical)
    && (cfg.boundaries == DEFAULT_BOUNDARIES ==> BaseRisk(g.event.authority) in {Low, Medium})
  }

  lemma ProposedWithinCeiling(cfg: Config, p: Plane, e: Event, around: Around)
    requires NoGrantingBoundary(cfg.boundaries)
    requires TtlFits(cfg, around.now) && ProposalGrants(cfg, p, e, around)
    ensures WithinCeiling(cfg, ProposalGrant(cfg, p, e, around))
  {
    var p2 := Accept(Enrolled(cfg, p, e), e);
    var e' := InContext(e, p2.agents[e.agentId]);
    var level, rule := StoredLevel(p2, e), PickedRule(around.pick);
    if e.requiresExecution { ExecutionNeedsLevelFour(cfg.boundaries, e', level, around.risk, rule); }
    if cfg.boundaries == DEFAULT_BOUNDARIES && BaseRisk(e.authority) in {High, Critical} {
      DefaultsNeverGrant(e', level, around.risk, rule);
    }
    MintedTokenClaims(cfg, e, rule, ProposalDecision(cfg, p, e, around).value.status, around);
  }

  /** Whatever was stored before and whatever the run does, every token minted in it respects the
      ceilings. */
  lemma {:induction false} CeilingsBeatTrust(cfg: Config, w: World, steps: seq<Step>)
    requires NoGrantingBoundary(cfg.boundaries) && LegalRun(cfg, w, steps)
    ensures var w' := RunOf(cfg, w, steps);
            && w.plane.grants <= w'.plane.grants
            && forall i :: |w.plane.grants| <= i < |w'.plane.grants| ==> WithinCeiling(cfg, w'.plane.grants[i])
    decreases |steps|
  {
    if steps != [] {
      var w1 := Perform(cfg, w, steps[0]);
      CeilingsBeatTrust(cfg, w1, steps[1..]);
      var w' := RunOf(cfg, w, steps);
      CeilingStep(cfg, w, steps[0]);
      forall i | |w.plane.grants| <= i < |w'.plane.grants| ensures WithinCeiling(cfg, w'.plane.grants[i]) {
        if i < |w1.plane.grants| { assert w'.plane.grants[i] == w1.plane.grants[i]; }
      }
    }
  }

  lemma CeilingStep(cfg: Config, w: World, step: Step)
    requires NoGrantingBoundary(cfg.boundaries) && LegalStep(cfg, w, step)
    ensures var w1 := Perform(cfg, w, step);
            && w.plane.grants <= w1.plane.grants
            && forall i :: |w.plane.grants| <= i < |w1.plane.grants| ==> WithinCeiling(cfg, w1.plane.grants[i])
  {
    if step.DoPropose? {
      ProposeMints(cfg, w.plane, step.event, step.around);
      if ProposalGrants(cfg, w.plane, step.event, step.around) {
        ProposedWithinCeiling(cfg, w.plane, step.event, step.around);
      }
    } else {
      OnlyProposalsMint(cfg, w, step);
    }
  }

  /** Under the default boundaries nothing of high or critical base risk is ever executed. */
  lemma NothingRiskyExecutes(cfg: Config, w: World, steps: seq<Step>)
    requires Sound(cfg.issuer) && cfg.boundaries == DEFAULT_BOUNDARIES
    requires Initial(w) && LegalRun(cfg, w, steps)
    ensures forall i :: 0 <= i < |RunOf(cfg, w, steps).executed| ==>
              BaseRisk(RunOf(cfg, w, steps).executed[i].action.authority) in {Low, Medium}
  {
    var w' := RunOf(cfg, w, steps);
    DefaultsGrantNothing();
    ProvenanceOfRuns(cfg, w, steps);
    CeilingsBeatTrust(cfg, w, steps);
    forall i | 0 <= i < |w'.executed| ensures BaseRisk(w'.executed[i].action.authority) in {Low, Medium} {
      assert HasGrant(w'.plane, w'.executed[i]);
      var j :| 0 <= j < |w'.plane.grants| && RunsUnder(w'.plane.grants[j], w'.executed[i]);
      assert WithinCeiling(cfg, w'.plane.grants[j]);
    }
  }

  lemma DefaultsGrantNothing()
    ensures NoGrantingBoundary(DEFAULT_BOUNDARIES)
  {
    forall b | b in DEFAULT_BOUNDARIES ensures !Grants(b.status) {
      var i :| 0 <= i < |DEFAULT_BOUNDARIES| && DEFAULT_BOUNDARIES[i] == b;
    }
  }

  // ---------- live rules ----------

  /** No stored level reaches unsupervised execution. */
  ghost predicate LowLevels(p: Plane) {
    forall id :: id in p.agents ==> LowAgent(p.agents[id])
  }

  ghost predicate LowAgent(a: Agent) {
    forall key :: key in a.autonomy ==> a.autonomy[key] <= EXECUTE_WITH_APPROVAL
  }

  /** No stored rule is above the ceiling of its class. */
  ghost predicate RulesWithinCeiling(p: Plane) {
    forall id :: id in p.rules ==> p.rules[id].level <= Ceiling(p.rules[id].authority)
  }

  /** Agents are registered with low stored levels. */
  ghost predicate LowRegistration(step: Step) {
    step.DoRegister? ==> LowAgent(step.agent)
  }

  ghost predicate LowRegistrations(steps: seq<Step>) {
    forall i :: 0 <= i < |steps| ==> LowRegistration(steps[i])
  }

  lemma DemotedIsLow(a: Agent, k: Scope)
    requires LowAgent(a)
    ensures LowAgent(Demoted(a, k))
  {}

  /** Concluding a proposal only mints. */
  lemma ConcludeOnlyMints(cfg: Config, p: Plane, e: Event, around: Around)
    requires e.agentId in p.agents && p.accepted != [] && TtlFits(cfg, around.now)
    ensures var p' := Conclude(cfg, p, e, around).0;
            p' == p.(caps := p'.caps, grants := p'.grants)
  {}

  lemma ProposeAgents(cfg: Config, p: Plane, e: Event, around: Around)
    requires TtlFits(cfg, around.now)
    ensures var p' := Propose(cfg, p, e, around).0;
            p'.agents == Enrolled(cfg, p, e).agents && p'.rules == p.rules && p'.memory == p.memory
  {
    var p1 := Enrolled(cfg, p, e);
    if Refuses(cfg, p1, e).None? { ConcludeOnlyMints(cfg, Accept(p1, e), e, around); }
  }

  lemma IncidentAgentsStayLow(p: Plane, k: Scope, reason: string)
    requires LowLevels(p)
    ensures LowLevels(Incident(p, k, reason))
  {
    if k.agentId in p.agents { DemotedIsLow(p.agents[k.agentId], k); }
  }

  lemma AgentsStayLow(cfg: Config, w: World, step: Step)
    requires LegalStep(cfg, w, step) && LowLevels(w.plane) && LowRegistration(step)
    ensures LowLevels(Perform(cfg, w, step).plane)
  {
    var p := w.plane;
    if step.DoPropose? {
      ProposeAgents(cfg, p, step.event, step.around);
    } else if step.DoIncident? {
      IncidentAgentsStayLow(p, step.scope, step.reason);
    } else if !step.DoRegister? {
      assert Perform(cfg, w, step).plane.agents == p.agents;
    }
  }

  lemma ApprovedRuleWithinCeiling(p: Plane, r: Rule, approver: string)
    requires RulesWithinCeiling(p)
    ensures RulesWithinCeiling(ApproveRule(p, r, approver).0)
  {}

  lemma RevokedRuleWithinCeiling(p: Plane, ruleId: string, reason: string)
    requires RulesWithinCeiling(p)
    ensures RulesWithinCeiling(RevokeRule(p, ruleId, reason))
  {}

  lemma IncidentRulesWithinCeiling(p: Plane, k: Scope, reason: string)
    requires RulesWithinCeiling(p)
    ensures RulesWithinCeiling(Incident(p, k, reason))
  {
    QuarantinedWithinCeiling(p.rules, k, reason);
  }

  lemma QuarantinedWithinCeiling(rules: map<string, Rule>, k: Scope, reason: string)
    ensures var after := Quarantined(rules, k, reason);
            after.Keys == rules.Keys && forall id :: id in rules ==>
              after[id].level == rules[id].level && after[id].authority == rules[id].authority
  {}

  lemma RulesStayWithinCeiling(cfg: Config, w: World, step: Step)
    requires LegalStep(cfg, w, step) && RulesWithinCeiling(w.plane)
    ensures RulesWithinCeiling(Perform(cfg, w, step).plane)
  {
    var p := w.plane;
    if step.DoPropose? {
      ProposeAgents(cfg, p, step.event, step.around);
    } else if step.DoApproveRule? {
      ApprovedRuleWithinCeiling(p, step.rule, step.approver);
    } else if step.DoRevokeRule? {
      RevokedRuleWithinCeiling(p, step.ruleId, step.reason);
    } else if step.DoIncident? {
      IncidentRulesWithinCeiling(p, step.scope, step.reason);
    } else {
      assert Perform(cfg, w, step).plane.rules == p.rules;
    }
  }

  /** Both hold throughout a run. */
  lemma {:induction false} LevelsAndRulesStay(cfg: Config, w: World, steps: seq<Step>)
    requires LegalRun(cfg, w, steps) && LowRegistrations(steps)
    requires LowLevels(w.plane) && RulesWithinCeiling(w.plane)
    ensures LowLevels(RunOf(cfg, w, steps).plane) && RulesWithinCeiling(RunOf(cfg, w, steps).plane)
    decreases |steps|
  {
    if steps != [] {
      assert LowRegistration(steps[0]);
      AgentsStayLow(cfg, w, steps[0]);
      RulesStayWithinCeiling(cfg, w, steps[0]);
      LevelsAndRulesStay(cfg, Perform(cfg, w, steps[0]), steps[1..]);
    }
  }

  /** The rule behind a grant: stored and active then, matching the event, at or below the ceiling, at
      level 4 or more, every guard known and clear in the agent's context. */
  ghost predicate LiveRuleBehind(p: Plane, e: Event, agent: Agent, rule: Option<Rule>) {
    && rule.Some?
    && (exists id :: id in p.rules && p.rules[id] == rule.value)
    && rule.value.active && RuleScope(rule.value) == ScopeOf(e)
    && (forall f :: f in rule.value.conditions ==> CheckOne(f.value, JsonGet(e, f.key)) == Yes)
    && EXECUTE_WITH_SAMPLING <= rule.value.level <= Ceiling(e.authority)
    && (forall n :: n in rule.value.requiresApprovalIf ==> n in GUARDS && Fires(n, InContext(e, agent)) == No)
  }

  function JsonGet(e: Event, key: string): JsonValues.Json {
    JsonValues.Get(e.metadata, key)
  }

  lemma ProposedUnderLiveRule(cfg: Config, w: World, e: Event, around: Around)
    requires NoGrantingBoundary(cfg.boundaries) && LowLevels(w.plane) && RulesWithinCeiling(w.plane)
    requires LegalStep(cfg, w, DoPropose(e, around)) && e.requiresExecution && ProposalGrants(cfg, w.plane, e, around)
    ensures LiveRuleBehind(w.plane, e, Enrolled(cfg, w.plane, e).agents[e.agentId], PickedRule(around.pick))
  {
    var p := w.plane;
    var p2 := Accept(Enrolled(cfg, p, e), e);
    var agent := p2.agents[e.agentId];
    var e' := InContext(e, agent);
    var level, rule := StoredLevel(p2, e), PickedRule(around.pick);
    assert LowAgent(agent);
    ExecutionNeedsLevelFour(cfg.boundaries, e', level, around.risk, rule);
    var id :| id in p.rules && p.rules[id] == rule.value && RuleMatches(rule.value, e) == Yes;
    CheckAllMeansEach(rule.value.conditions, e.metadata);
    ClearMeansKnownAndQuiet(rule.value.requiresApprovalIf, e');
  }

  /** Every execution grant comes from a live rule: at any point of any run that starts without
      elevated levels and over-ceiling rules, a proposal that mints a token for an execution request
      does so under a rule that is stored, active and matching at that moment. */
  lemma ExecutionGrantsComeFromLiveRules(cfg: Config, w: World, steps: seq<Step>, e: Event, around: Around)
    requires NoGrantingBoundary(cfg.boundaries) && LowLevels(w.plane) && RulesWithinCeiling(w.plane)
    requires LegalRun(cfg, w, steps) && LowRegistrations(steps)
    requires LegalStep(cfg, RunOf(cfg, w, steps), DoPropose(e, around)) && e.requiresExecution
    ensures
      var p := RunOf(cfg, w, steps).plane;
      var p' := Propose(cfg, p, e, around).0;
      p'.grants != p.grants ==>
        && p'.grants == p.grants + [ProposalGrant(cfg, p, e, around)]
        && p'.grants[|p.grants|].rule == PickedRule(around.pick)
        && LiveRuleBehind(p, e, Enrolled(cfg, p, e).agents[e.agentId], PickedRule(around.pick))
  {
    var w' := RunOf(cfg, w, steps);
    LevelsAndRulesStay(cfg, w, steps);
    ProposeMints(cfg, w'.plane, e, around);
    if ProposalGrants(cfg, w'.plane, e, around) { ProposedUnderLiveRule(cfg, w', e, around); }
  }
}
