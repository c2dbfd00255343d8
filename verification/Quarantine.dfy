/** After an incident every path to the old authority is shut, until a rule for the scope is approved
    again. */
module Quarantine {
  import opened Instants
  import JsonValues
  import opened Ontology
  import opened Models
  import opened Conditions
  import opened Policy
  import opened Tokens
  import opened TokenStates
  import opened Capabilities
  import opened Planes
  import opened Machine
  import opened Provenance
  import opened Ceilings

  // ---------- dead tokens stay dead ----------

  lemma AgingStepAges(cfg: Config, w: World, step: Step)
    requires Valid(cfg, w) && LegalStep(cfg, w, step)
    requires step.DoRevokeToken? || step.DoTick? || step.DoPurge? || step.DoIncident? || step.DoRevokeRule?
    ensures Ages(w.plane, w.clock, Perform(cfg, w, step).plane.caps, Perform(cfg, w, step).clock)
    ensures Perform(cfg, w, step).plane.grants == w.plane.grants && Perform(cfg, w, step).executed == w.executed
  {
    var p := w.plane;
    match step
    case DoRevokeRule(id, _) =>
      if id in p.rules { RevokeScopeAges(p, w.clock, RuleScope(p.rules[id])); } else { TickAges(p, w.clock, w.clock); }
    case DoIncident(k, _) => RevokeScopeAges(p, w.clock, k);
    case DoRevokeToken(id) => RevokeAges(p, w.clock, id);
    case DoTick(now) => TickAges(p, w.clock, now);
    case DoPurge(nowIso) => PurgeAges(p, w.clock, nowIso);
  }

  lemma ProposeKeepsDead(cfg: Config, w: World, e: Event, around: Around, i: nat)
    requires TtlFits(cfg, around.now) && i < |w.plane.grants| && Dead(w.plane.caps, w.clock, w.plane.grants[i].token)
    ensures var p' := Propose(cfg, w.plane, e, around).0;
            i < |p'.grants| && p'.grants[i] == w.plane.grants[i] && Dead(p'.caps, w.clock, p'.grants[i].token)
  {
    ProposeMints(cfg, w.plane, e, around);
    ProposeCaps(cfg, w.plane, e, around);
    if ProposalGrants(cfg, w.plane, e, around) {
      RecordKeepsDead(w.plane.caps, w.clock, ProposalGrant(cfg, w.plane, e, around).token, w.plane.grants[i].token);
    }
  }

  lemma ProposeCaps(cfg: Config, p: Plane, e: Event, around: Around)
    requires TtlFits(cfg, around.now)
    ensures Propose(cfg, p, e, around).0.caps ==
            if ProposalGrants(cfg, p, e, around) then Record(p.caps, ProposalGrant(cfg, p, e, around).token) else p.caps
  {}

  /** No step revives a token. */
  lemma DeadStays(cfg: Config, w: World, step: Step, i: nat)
    requires Sound(cfg.issuer) && Valid(cfg, w) && LegalStep(cfg, w, step)
    requires i < |w.plane.grants| && Dead(w.plane.caps, w.clock, w.plane.grants[i].token)
    ensures var w' := Perform(cfg, w, step);
            i < |w'.plane.grants| && w'.plane.grants[i] == w.plane.grants[i]
            && Dead(w'.plane.caps, w'.clock, w'.plane.grants[i].token)
  {
    if step.DoPropose? {
      ProposeKeepsDead(cfg, w, step.event, step.around, i);
    } else if step.DoRevokeToken? || step.DoTick? || step.DoPurge? || step.DoIncident? || step.DoRevokeRule? {
      AgingStepAges(cfg, w, step);
    } else if step.DoExecute? {
      VerificationConsumes(cfg, w, step.token, step.action, step.context);
      ConsumeAges(w.plane, w.clock, step.token.tokenId);
    } else {
      assert Perform(cfg, w, step).plane.caps == w.plane.caps;
    }
  }

  // ---------- the quarantine ----------

  ghost predicate RulesShut(rules: map<string, Rule>, k: Scope) {
    forall id :: id in rules && RuleScope(rules[id]) == k ==> !rules[id].active
  }

  /** Tokens of the scope minted before position `n` are dead. */
  ghost predicate OldTokensDead(w: World, k: Scope, n: nat) {
    && n <= |w.plane.grants|
    && forall i :: 0 <= i < n && TokenScope(w.plane.grants[i].token) == k ==>
         Dead(w.plane.caps, w.clock, w.plane.grants[i].token)
  }

  /** Tokens of the scope minted since are for requests that execute nothing. */
  ghost predicate NewTokensHarmless(w: World, k: Scope, n: nat) {
    forall i :: n <= i < |w.plane.grants| && TokenScope(w.plane.grants[i].token) == k ==>
      !w.plane.grants[i].event.requiresExecution
  }

  /** Executions in the scope since position `x` ran on tokens minted since. */
  ghost predicate NewExecutionsOnNewTokens(w: World, k: Scope, n: nat, x: nat) {
    && x <= |w.executed|
    && forall j :: x <= j < |w.executed| && w.executed[j].action == k ==> OnTokenSince(w.plane, w.executed[j], n)
  }

  ghost predicate OnTokenSince(p: Plane, run: Execution, n: nat) {
    exists i :: n <= i < |p.grants| && SameGrant(p.grants[i].token, run.token)
  }

  /** The agent is registered and stored at a level below execution for the scope. */
  predicate ScopeLow(p: Plane, k: Scope) {
    k.agentId in p.agents && p.agents[k.agentId].AutonomyFor(k.workflowId, k.authority) <= EXECUTE_WITH_APPROVAL
  }

  ghost predicate Shut(cfg: Config, w: World, k: Scope, n: nat, x: nat) {
    && RulesShut(w.plane.rules, k) && ScopeLow(w.plane, k)
    && OldTokensDead(w, k, n) && NewTokensHarmless(w, k, n) && NewExecutionsOnNewTokens(w, k, n, x)
  }

  /** An incident lowers the stored level of its own scope to at most 3 and no other level. */
  lemma IncidentDemotesScope(p: Plane, k: Scope, reason: string, other: Scope)
    requires k.agentId in p.agents && other.agentId in p.agents
    ensures
      var before := p.agents[other.agentId].AutonomyFor(other.workflowId, other.authority);
      var after := Incident(p, k, reason).agents[other.agentId].AutonomyFor(other.workflowId, other.authority);
      after == if other == k then MinLevel(before, EXECUTE_WITH_APPROVAL) else before
  {
    if other.agentId == k.agentId && ScopeKey(other.workflowId, other.authority) == ScopeKey(k.workflowId, k.authority) {
      ScopeKeysDiffer(other.workflowId, other.authority, k.workflowId, k.authority);
    }
  }

  /** The incident itself shuts the scope, whatever levels were stored: its level is at most 3, every
      token minted for it so far is consumed, revoked or expired, every rule for it inactive. */
  lemma IncidentShuts(cfg: Config, w: World, k: Scope, reason: string)
    requires Valid(cfg, w) && k.agentId in w.plane.agents
    ensures Shut(cfg, Perform(cfg, w, DoIncident(k, reason)), k, |w.plane.grants|, |w.executed|)
  {
    var p := w.plane;
    var p' := Incident(p, k, reason);
    IncidentDemotesScope(p, k, reason, k);
    IncidentShutsRules(p, k, reason);
    RevokedScopeIsDead(p, w.clock, k);
  }

  /** Revoking a scope leaves no minted token of it usable: a token the store has no record of any more
      has expired. */
  lemma RevokedScopeIsDead(p: Plane, clock: Instant, k: Scope)
    requires StoreMatches(p, clock)
    ensures forall i :: 0 <= i < |p.grants| && TokenScope(p.grants[i].token) == k ==>
              Dead(RevokeScope(p.caps, k), clock, p.grants[i].token)
  {
    RevokeScopeEffect(p.caps, k);
    forall i | 0 <= i < |p.grants| && TokenScope(p.grants[i].token) == k
      ensures Dead(RevokeScope(p.caps, k), clock, p.grants[i].token)
    {
      var id := p.grants[i].token.tokenId;
      if id in Recorded(p.caps) && !IsConsumed(p.caps, id) && !IsRevoked(p.caps, id) {
        assert id in LiveIn(p.caps, k);
      }
    }
  }

  lemma IncidentShutsRules(p: Plane, k: Scope, reason: string)
    requires k.agentId in p.agents
    ensures RulesShut(Incident(p, k, reason).rules, k)
  {}

  /** Rules are shut exactly when the agent is registered, or none was active anyway. */
  lemma IncidentShutsRulesOnlyIfRegistered(p: Plane, k: Scope, reason: string)
    ensures RulesShut(Incident(p, k, reason).rules, k) <==> k.agentId in p.agents || RulesShut(p.rules, k)
  {
    if k.agentId in p.agents { IncidentShutsRules(p, k, reason); }
  }

  /** For an agent that is not registered an incident changes no later decision: outside strict mode
      its next matching proposal is granted as before. */
  lemma IncidentOnUnknownAgentChangesNothing(cfg: Config, p: Plane, k: Scope, reason: string, e: Event, around: Around)
    requires k.agentId !in p.agents
    ensures Incident(p, k, reason).rules == p.rules
    ensures ProposalDecision(cfg, Incident(p, k, reason), e, around) == ProposalDecision(cfg, p, e, around)
  {}

  // ---------- no step reopens it ----------

  /** Two things do: approving a rule for the scope, and registering the agent anew with a level for
      the scope that executes on its own. */
  predicate Reopens(step: Step, k: Scope) {
    match step
    case DoApproveRule(r, _) => RuleScope(r) == k
    case DoRegister(a) => a.agentId == k.agentId && a.AutonomyFor(k.workflowId, k.authority) > EXECUTE_WITH_APPROVAL
    case _ => false
  }

  lemma ScopeStaysLow(cfg: Config, w: World, k: Scope, step: Step)
    requires LegalStep(cfg, w, step) && ScopeLow(w.plane, k) && !Reopens(step, k)
    ensures ScopeLow(Perform(cfg, w, step).plane, k)
  {
    if step.DoPropose? {
      ProposeAgents(cfg, w.plane, step.event, step.around);
    } else if step.DoIncident? {
      if step.scope.agentId in w.plane.agents { IncidentDemotesScope(w.plane, step.scope, step.reason, k); }
    } else if !step.DoRegister? {
      assert Perform(cfg, w, step).plane.agents == w.plane.agents;
    }
  }

  lemma RulesStayShut(cfg: Config, w: World, k: Scope, step: Step)
    requires LegalStep(cfg, w, step) && RulesShut(w.plane.rules, k) && !Reopens(step, k)
    ensures RulesShut(Perform(cfg, w, step).plane.rules, k)
  {
    var p := w.plane;
    if step.DoPropose? {
      ProposeAgents(cfg, p, step.event, step.around);
    } else if step.DoApproveRule? {
      ApproveElsewhere(p, step.rule, step.approver, k);
    } else if step.DoRevokeRule? {
      RevokeKeepsShut(p, step.ruleId, step.reason, k);
    } else if step.DoIncident? {
      IncidentKeepsShut(p, step.scope, step.reason, k);
    } else {
      assert Perform(cfg, w, step).plane.rules == p.rules;
    }
  }

  lemma ApproveElsewhere(p: Plane, r: Rule, approver: string, k: Scope)
    requires RulesShut(p.rules, k) && RuleScope(r) != k
    ensures RulesShut(ApproveRule(p, r, approver).0.rules, k)
  {}

  lemma RevokeKeepsShut(p: Plane, id: string, reason: string, k: Scope)
    requires RulesShut(p.rules, k)
    ensures RulesShut(RevokeRule(p, id, reason).rules, k)
  {}

  lemma IncidentKeepsShut(p: Plane, other: Scope, reason: string, k: Scope)
    requires RulesShut(p.rules, k)
    ensures RulesShut(Incident(p, other, reason).rules, k)
  {}

  /** With its rules shut and its own level low, an execution request in the scope gets no token. */
  lemma ShutMintsNothing(cfg: Config, p: Plane, k: Scope, e: Event, around: Around)
    requires NoGrantingBoundary(cfg.boundaries) && ScopeLow(p, k) && RulesShut(p.rules, k)
    requires TtlFits(cfg, around.now) && LegalPick(p.rules, e, around.pick) && ScopeOf(e) == k && e.requiresExecution
    ensures !ProposalGrants(cfg, p, e, around)
  {
    if ProposalGrants(cfg, p, e, around) {
      var p2 := Accept(Enrolled(cfg, p, e), e);
      var agent := p2.agents[e.agentId];
      ExecutionNeedsLevelFour(cfg.boundaries, InContext(e, agent), StoredLevel(p2, e), around.risk, PickedRule(around.pick));
      assert false;
    }
  }

  lemma TokensStayHarmless(cfg: Config, w: World, k: Scope, n: nat, step: Step)
    requires NoGrantingBoundary(cfg.boundaries) && LegalStep(cfg, w, step)
    requires ScopeLow(w.plane, k) && RulesShut(w.plane.rules, k) && NewTokensHarmless(w, k, n)
    ensures NewTokensHarmless(Perform(cfg, w, step), k, n)
  {
    if step.DoPropose? {
      var e, around := step.event, step.around;
      ProposeMints(cfg, w.plane, e, around);
      if ProposalGrants(cfg, w.plane, e, around) {
        MintedTokenClaims(cfg, e, PickedRule(around.pick), ProposalDecision(cfg, w.plane, e, around).value.status, around);
        if ScopeOf(e) == k && e.requiresExecution { ShutMintsNothing(cfg, w.plane, k, e, around); }
      }
    } else {
      OnlyProposalsMint(cfg, w, step);
    }
  }

  lemma OldTokensStayDead(cfg: Config, w: World, k: Scope, n: nat, step: Step)
    requires Sound(cfg.issuer) && Valid(cfg, w) && LegalStep(cfg, w, step) && OldTokensDead(w, k, n)
    ensures OldTokensDead(Perform(cfg, w, step), k, n)
  {
    var w' := Perform(cfg, w, step);
    GrantsOnlyGrow(cfg, w, step);
    forall i | 0 <= i < n && TokenScope(w'.plane.grants[i].token) == k
      ensures Dead(w'.plane.caps, w'.clock, w'.plane.grants[i].token)
    {
      DeadStays(cfg, w, step, i);
    }
  }

  lemma GrantsOnlyGrow(cfg: Config, w: World, step: Step)
    requires LegalStep(cfg, w, step)
    ensures w.plane.grants <= Perform(cfg, w, step).plane.grants
  {
    if step.DoPropose? { ProposeMints(cfg, w.plane, step.event, step.around); } else { OnlyProposalsMint(cfg, w, step); }
  }

  lemma ExecutionsStayOnNewTokens(cfg: Config, w: World, k: Scope, n: nat, x: nat, step: Step)
    requires Sound(cfg.issuer) && Valid(cfg, w) && LegalStep(cfg, w, step)
    requires OldTokensDead(w, k, n) && NewExecutionsOnNewTokens(w, k, n, x)
    ensures NewExecutionsOnNewTokens(Perform(cfg, w, step), k, n, x)
  {
    var w' := Perform(cfg, w, step);
    GrantsOnlyGrow(cfg, w, step);
    ExecutedGrows(cfg, w, step);
    if step.DoExecute? && w'.executed != w.executed {
      NewExecutionOnNewToken(cfg, w, k, n, step.token, step.action, step.context);
      OnTokenSinceStaysIf(w.plane, w'.plane, Execution(step.token, step.action), k, n);
    }
    forall j | x <= j < |w'.executed| && w'.executed[j].action == k ensures OnTokenSince(w'.plane, w'.executed[j], n) {
      if j < |w.executed| {
        assert w'.executed[j] == w.executed[j];
        OnTokenSinceStays(w.plane, w'.plane, w.executed[j], n);
      }
    }
  }

  lemma ExecutedGrows(cfg: Config, w: World, step: Step)
    requires LegalStep(cfg, w, step)
    ensures
      var w' := Perform(cfg, w, step);
      || w'.executed == w.executed
      || (step.DoExecute?
          && VerifyForAction(cfg.issuer, w.plane.caps, step.token, step.action, step.context, w.clock).0 == Accepted
          && w'.executed == w.executed + [Execution(step.token, step.action)])
  {}

  lemma OnTokenSinceStaysIf(p: Plane, p': Plane, x: Execution, k: Scope, n: nat)
    requires p.grants <= p'.grants && (x.action == k ==> OnTokenSince(p, x, n))
    ensures x.action == k ==> OnTokenSince(p', x, n)
  {
    if x.action == k { OnTokenSinceStays(p, p', x, n); }
  }

  lemma OnTokenSinceStays(p: Plane, p': Plane, x: Execution, n: nat)
    requires p.grants <= p'.grants && OnTokenSince(p, x, n)
    ensures OnTokenSince(p', x, n)
  {
    var i :| n <= i < |p.grants| && SameGrant(p.grants[i].token, x.token);
    assert p'.grants[i] == p.grants[i];
  }

  lemma NewExecutionOnNewToken(cfg: Config, w: World, k: Scope, n: nat, t: Token, action: Scope, context: JsonValues.Dict)
    requires Sound(cfg.issuer) && Valid(cfg, w) && Unforged(cfg, w.plane, t) && OldTokensDead(w, k, n)
    requires VerifyForAction(cfg.issuer, w.plane.caps, t, action, context, w.clock).0 == Accepted
    ensures action == k ==> OnTokenSince(w.plane, Execution(t, action), n)
  {
    AcceptedMeansInScope(cfg.issuer, w.plane.caps, t, action, context, w.clock);
    var i := AcceptedTokenWasMinted(cfg, w.plane, t);
    assert GrantMatches(cfg, w.plane, w.plane.grants[i]);
    if action == k && i < n {
      DeadIsRefused(cfg, w.plane, w.clock, t, w.plane.grants[i].token, action, context);
    }
  }

  lemma StaysShut(cfg: Config, w: World, k: Scope, n: nat, x: nat, step: Step)
    requires Sound(cfg.issuer) && NoGrantingBoundary(cfg.boundaries)
    requires Valid(cfg, w) && LegalStep(cfg, w, step) && !Reopens(step, k)
    requires Shut(cfg, w, k, n, x)
    ensures Shut(cfg, Perform(cfg, w, step), k, n, x)
  {
    RulesStayShut(cfg, w, k, step);
    ScopeStaysLow(cfg, w, k, step);
    OldTokensStayDead(cfg, w, k, n, step);
    TokensStayHarmless(cfg, w, k, n, step);
    ExecutionsStayOnNewTokens(cfg, w, k, n, x, step);
  }

  lemma {:induction false} RunStaysShut(cfg: Config, w: World, k: Scope, n: nat, x: nat, steps: seq<Step>)
    requires Sound(cfg.issuer) && NoGrantingBoundary(cfg.boundaries)
    requires Valid(cfg, w) && LegalRun(cfg, w, steps)
    requires forall i :: 0 <= i < |steps| ==> !Reopens(steps[i], k)
    requires Shut(cfg, w, k, n, x)
    ensures Shut(cfg, RunOf(cfg, w, steps), k, n, x)
    decreases |steps|
  {
    if steps != [] {
      assert !Reopens(steps[0], k);
      StepKeepsValid(cfg, w, steps[0]);
      StaysShut(cfg, w, k, n, x, steps[0]);
      RunStaysShut(cfg, Perform(cfg, w, steps[0]), k, n, x, steps[1..]);
    }
  }

  /** THE quarantine theorem. From the incident on, whatever levels were stored before and whatever else
      happens short of approving a rule for the scope or registering the agent anew above level 3 for
      it: no token minted before the incident ever executes again, and every execution in the scope
      runs on a token minted afterwards for a request that executes nothing. */
  lemma IncidentQuarantines(cfg: Config, before: World, k: Scope, reason: string, steps: seq<Step>)
    requires Sound(cfg.issuer) && NoGrantingBoundary(cfg.boundaries)
    requires Valid(cfg, before) && k.agentId in before.plane.agents
    requires LegalRun(cfg, Perform(cfg, before, DoIncident(k, reason)), steps)
    requires forall i :: 0 <= i < |steps| ==> !Reopens(steps[i], k)
    ensures
      var after := RunOf(cfg, Perform(cfg, before, DoIncident(k, reason)), steps);
      var n := |before.plane.grants|;
      && OldTokensDead(after, k, n)
      && NewTokensHarmless(after, k, n)
      && NewExecutionsOnNewTokens(after, k, n, |before.executed|)
  {
    IncidentShuts(cfg, before, k, reason);
    StepKeepsValid(cfg, before, DoIncident(k, reason));
    RunStaysShut(cfg, Perform(cfg, before, DoIncident(k, reason)), k, |before.plane.grants|, |before.executed|, steps);
  }

  // ---------- a revoked rule ----------

  /** Rules are filed under their own ids. */
  ghost predicate RulesKeyed(p: Plane) {
    forall id :: id in p.rules ==> p.rules[id].ruleId == id
  }

  lemma RulesStayKeyed(cfg: Config, w: World, step: Step)
    requires LegalStep(cfg, w, step) && RulesKeyed(w.plane)
    ensures RulesKeyed(Perform(cfg, w, step).plane)
  {
    var p := w.plane;
    match step
    case DoPropose(e, around) => ProposeAgents(cfg, p, e, around);
    case DoIncident(k, reason) => QuarantineKeepsKeys(p.rules, k, reason);
    case DoRevokeRule(id, reason) => RevokedRules(p, id, reason);
    case DoApproveRule(_, _) =>
    case _ => assert Perform(cfg, w, step).plane.rules == p.rules;
  }

  lemma QuarantineKeepsKeys(rules: map<string, Rule>, k: Scope, reason: string)
    ensures var after := Quarantined(rules, k, reason);
            after.Keys == rules.Keys && forall id :: id in rules ==>
              after[id].ruleId == rules[id].ruleId && RuleScope(after[id]) == RuleScope(rules[id])
              && (after[id].active ==> rules[id].active)
  {}

  /** Revoking changes the one rule and leaves it inactive. */
  lemma RevokedRules(p: Plane, ruleId: string, reason: string)
    requires RulesKeyed(p)
    ensures
      var after := RevokeRule(p, ruleId, reason).rules;
      && after.Keys == p.rules.Keys && after - {ruleId} == p.rules - {ruleId}
      && (ruleId in p.rules ==> !after[ruleId].active && RuleScope(after[ruleId]) == RuleScope(p.rules[ruleId]))
      && forall id :: id in after ==> after[id].ruleId == id
  {
    var after := RevokeRule(p, ruleId, reason).rules;
    forall id | id in p.rules && id != ruleId ensures after[id] == p.rules[id] {}
  }

  lemma {:induction false} RunKeepsRulesKeyed(cfg: Config, w: World, steps: seq<Step>)
    requires LegalRun(cfg, w, steps) && RulesKeyed(w.plane)
    ensures RulesKeyed(RunOf(cfg, w, steps).plane)
    decreases |steps|
  {
    if steps != [] {
      RulesStayKeyed(cfg, w, steps[0]);
      RunKeepsRulesKeyed(cfg, Perform(cfg, w, steps[0]), steps[1..]);
    }
  }

  /** The rule is inactive and no token of its scope minted before position `n` is usable. */
  ghost predicate Ended(w: World, ruleId: string, k: Scope, n: nat) {
    && RulesKeyed(w.plane) && ruleId in w.plane.rules && !w.plane.rules[ruleId].active
    && OldTokensDead(w, k, n)
  }

  predicate Reapproves(step: Step, ruleId: string) {
    step.DoApproveRule? && step.rule.ruleId == ruleId
  }

  lemma RuleStaysInactive(cfg: Config, w: World, step: Step, ruleId: string)
    requires LegalStep(cfg, w, step) && RulesKeyed(w.plane) && !Reapproves(step, ruleId)
    requires ruleId in w.plane.rules && !w.plane.rules[ruleId].active
    ensures var rules := Perform(cfg, w, step).plane.rules; ruleId in rules && !rules[ruleId].active
  {
    var p := w.plane;
    match step
    case DoPropose(e, around) => ProposeAgents(cfg, p, e, around);
    case DoIncident(k, reason) => QuarantineKeepsKeys(p.rules, k, reason);
    case DoRevokeRule(id, reason) => RevokedRules(p, id, reason); RevokedElsewhere(p, id, reason, ruleId);
    case DoApproveRule(r, approver) => ApprovedElsewhere(p, r, approver, ruleId);
    case _ => assert Perform(cfg, w, step).plane.rules == p.rules;
  }

  lemma ApprovedElsewhere(p: Plane, r: Rule, approver: string, ruleId: string)
    requires ruleId in p.rules && r.ruleId != ruleId
    ensures var rules := ApproveRule(p, r, approver).0.rules; ruleId in rules && rules[ruleId] == p.rules[ruleId]
  {}

  lemma RevokedElsewhere(p: Plane, id: string, reason: string, ruleId: string)
    requires RulesKeyed(p) && ruleId in p.rules && !p.rules[ruleId].active
    ensures !RevokeRule(p, id, reason).rules[ruleId].active
  {}

  lemma {:induction false} RunKeepsEnded(cfg: Config, w: World, steps: seq<Step>, ruleId: string, k: Scope, n: nat)
    requires Sound(cfg.issuer) && Valid(cfg, w) && LegalRun(cfg, w, steps) && Ended(w, ruleId, k, n)
    requires forall i :: 0 <= i < |steps| ==> !Reapproves(steps[i], ruleId)
    ensures Ended(RunOf(cfg, w, steps), ruleId, k, n)
    decreases |steps|
  {
    if steps != [] {
      assert !Reapproves(steps[0], ruleId);
      StepKeepsValid(cfg, w, steps[0]);
      RulesStayKeyed(cfg, w, steps[0]);
      RuleStaysInactive(cfg, w, steps[0], ruleId);
      OldTokensStayDead(cfg, w, k, n, steps[0]);
      RunKeepsEnded(cfg, Perform(cfg, w, steps[0]), steps[1..], ruleId, k, n);
    }
  }

  /** Revoking a rule ends what it granted: whatever happens afterwards, short of approving the same
      rule again, it matches no event and no token of its scope minted before is usable. */
  lemma RevokedRuleEnds(cfg: Config, w: World, ruleId: string, reason: string, steps: seq<Step>, e: Event)
    requires Sound(cfg.issuer) && Valid(cfg, w) && RulesKeyed(w.plane) && ruleId in w.plane.rules
    requires LegalRun(cfg, Perform(cfg, w, DoRevokeRule(ruleId, reason)), steps)
    requires forall i :: 0 <= i < |steps| ==> !Reapproves(steps[i], ruleId)
    ensures
      var after := RunOf(cfg, Perform(cfg, w, DoRevokeRule(ruleId, reason)), steps);
      && ruleId in after.plane.rules && RuleMatches(after.plane.rules[ruleId], e) == No
      && OldTokensDead(after, RuleScope(w.plane.rules[ruleId]), |w.plane.grants|)
  {
    RevocationEnds(cfg, w, ruleId, reason);
    StepKeepsValid(cfg, w, DoRevokeRule(ruleId, reason));
    RunKeepsEnded(cfg, Perform(cfg, w, DoRevokeRule(ruleId, reason)), steps, ruleId, RuleScope(w.plane.rules[ruleId]), |w.plane.grants|);
  }

  lemma RevocationEnds(cfg: Config, w: World, ruleId: string, reason: string)
    requires StoreMatches(w.plane, w.clock) && RulesKeyed(w.plane) && ruleId in w.plane.rules
    ensures Ended(Perform(cfg, w, DoRevokeRule(ruleId, reason)), ruleId, RuleScope(w.plane.rules[ruleId]), |w.plane.grants|)
  {
    var p, p', k := w.plane, RevokeRule(w.plane, ruleId, reason), RuleScope(w.plane.rules[ruleId]);
    RevokedRules(p, ruleId, reason);
    RevokedTokens(p, w.clock, ruleId, reason);
    assert Perform(cfg, w, DoRevokeRule(ruleId, reason)) == w.(plane := p');
    assert OldTokensDead(w.(plane := p'), k, |p.grants|);
  }

  lemma RevokedTokens(p: Plane, clock: Instant, ruleId: string, reason: string)
    requires StoreMatches(p, clock) && ruleId in p.rules
    ensures
      var p' := RevokeRule(p, ruleId, reason);
      p'.grants == p.grants
      && forall i :: 0 <= i < |p.grants| && TokenScope(p.grants[i].token) == RuleScope(p.rules[ruleId]) ==>
           Dead(p'.caps, clock, p.grants[i].token)
  {
    RevokedCaps(p, ruleId, reason);
    RevokedScopeIsDead(p, clock, RuleScope(p.rules[ruleId]));
  }

  lemma RevokedCaps(p: Plane, ruleId: string, reason: string)
    requires ruleId in p.rules
    ensures var p' := RevokeRule(p, ruleId, reason);
            p' == p.(rules := p'.rules, caps := RevokeScope(p.caps, RuleScope(p.rules[ruleId])))
  {}
}
