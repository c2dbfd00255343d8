/** What each operation of the control plane answers and changes, said from outside. */
module OperationLaws {
  import opened Options
  import opened JsonValues
  import opened JsonLaws
  import opened CanonicalProperties
  import opened Instants
  import opened Ontology
  import opened Models
  import opened Conditions
  import opened Signing
  import opened Policy
  import opened PolicyProperties
  import opened Tokens
  import opened Trust
  import opened TokenStates
  import opened Capabilities
  import opened Planes
  import opened Sdk
  import R = Recommendations

  // ---------- agents ----------

  /** Registration stores the agent under its id, in strict mode only with a key that is not empty. */
  lemma RegistersExactly(cfg: Config, p: Plane, a: Agent)
    ensures Register(cfg, p, a) ==
            if cfg.strict && (a.publicKey == None || a.publicKey == Some("")) then p else p.(agents := p.agents[a.agentId := a])
  {}

  // ---------- admission ----------

  /** In strict mode the event needs a signature that the key registered for its agent verifies. */
  predicate Authentic(cfg: Config, a: Agent, e: Event) {
    && a.publicKey.Some? && a.publicKey.value != "" && e.signature.Some?
    && Verify(a.publicKey.value, cfg.eventPayload(e), e.signature.value)
  }

  /** An event is admitted exactly when its agent is registered and active, or unknown outside strict
      mode, it is authentic where that is asked, and its nonce is new. */
  predicate Admissible(cfg: Config, p: Plane, e: Event) {
    && (if e.agentId in p.agents then p.agents[e.agentId].active && (cfg.strict ==> Authentic(cfg, p.agents[e.agentId], e))
        else !cfg.strict)
    && (e.agentId, e.nonce) !in p.nonces
  }

  /** What each denial says about the event. */
  predicate DenialHolds(cfg: Config, p: Plane, e: Event, reason: Denial) {
    var known := e.agentId in p.agents;
    match reason
    case UnknownAgent => cfg.strict && !known
    case InactiveAgent => known && !p.agents[e.agentId].active
    case Unsigned => cfg.strict && known && e.signature == None
    case BadSignature => cfg.strict && known && e.signature.Some? && !Authentic(cfg, p.agents[e.agentId], e)
    case ReplayedNonce => (e.agentId, e.nonce) in p.nonces
    case RaisedTypeError => Admissible(cfg, p, e)
  }

  lemma ConcludeKeeps(cfg: Config, p: Plane, e: Event, around: Around)
    requires e.agentId in p.agents && p.accepted != [] && TtlFits(cfg, around.now)
    ensures var r := Conclude(cfg, p, e, around);
            && r.0 == p.(caps := r.0.caps, grants := r.0.grants)
            && (r.1.Denied? ==> r.1.reason == RaisedTypeError && r.0 == p)
  {}

  lemma RefusesUnlessAdmissible(cfg: Config, p: Plane, e: Event)
    ensures var refusal := Refuses(cfg, Enrolled(cfg, p, e), e);
            && (refusal.None? <==> Admissible(cfg, p, e))
            && (refusal.Some? ==> refusal.value != RaisedTypeError && DenialHolds(cfg, p, e, refusal.value))
  {}

  /** A proposal stores its event and claims its nonce exactly when the event is admissible, and every
      denial gives a true reason; a denied event leaves nothing behind, an unknown agent's record
      outside strict mode aside. */
  lemma ProposalAdmits(cfg: Config, p: Plane, e: Event, around: Around)
    requires TtlFits(cfg, around.now)
    ensures
      var r := Propose(cfg, p, e, around);
      && r.0.rules == p.rules && r.0.memory == p.memory
      && (if Admissible(cfg, p, e) then
            && r.0.events == p.events[e.eventId := e] && r.0.accepted == p.accepted + [e]
            && r.0.nonces == p.nonces + {(e.agentId, e.nonce)}
          else
            && r.0 == p.(agents := r.0.agents) && r.1.Denied? && r.1.reason != RaisedTypeError)
      && (r.1.Denied? ==> DenialHolds(cfg, p, e, r.1.reason))
  {
    var p1 := Enrolled(cfg, p, e);
    RefusesUnlessAdmissible(cfg, p, e);
    if Refuses(cfg, p1, e).None? { ConcludeKeeps(cfg, Accept(p1, e), e, around); }
  }

  /** The one agent a proposal may create belongs to the event's owner, starts at the bottom of the
      ladder for everything, and is approved for the event's workflow alone. */
  lemma ProposalEnrolls(cfg: Config, p: Plane, e: Event, around: Around)
    requires TtlFits(cfg, around.now)
    ensures
      var agents := Propose(cfg, p, e, around).0.agents;
      if e.agentId in p.agents || cfg.strict then agents == p.agents
      else
        && agents.Keys == p.agents.Keys + {e.agentId}
        && (forall id :: id in p.agents ==> agents[id] == p.agents[id])
        && agents[e.agentId].agentId == e.agentId && agents[e.agentId].ownerId == e.humanOwnerId
        && agents[e.agentId].active && agents[e.agentId].approvedWorkflows == [e.workflowId]
        && agents[e.agentId].publicKey == None
        && (forall w, a :: agents[e.agentId].AutonomyFor(w, a) == 0)
  {
    var p1 := Enrolled(cfg, p, e);
    if Refuses(cfg, p1, e).None? { ConcludeKeeps(cfg, Accept(p1, e), e, around); }
  }

  // ---------- the decision and its token ----------

  lemma {:induction false} StringsAt(ss: seq<string>)
    ensures Strings(ss) == seq(|ss|, i requires 0 <= i < |ss| => Str(ss[i]))
  {
    if ss != [] { StringsAt(ss[1..]); }
  }

  /** The workflow guard sees the agent's approved workflows: for an event that brings no list of its
      own it fires exactly when the agent has approved workflows and this is not one. */
  lemma AgentWorkflowsGuard(e: Event, agent: Agent)
    requires "_approved_workflows" !in e.metadata
    ensures Fires("outside_known_workflow", InContext(e, agent)) ==
            if agent.approvedWorkflows == [] || e.workflowId in agent.approvedWorkflows then No else Yes
  {
    StringsAt(agent.approvedWorkflows);
    KnownWorkflows(InContext(e, agent), agent.approvedWorkflows);
  }

  /** The added list is all a guard's view of the event differs in. */
  lemma ContextAddsWorkflows(e: Event, agent: Agent)
    ensures InContext(e, agent).(metadata := e.metadata) == e
    ensures InContext(e, agent).metadata - {"_approved_workflows"} == e.metadata - {"_approved_workflows"}
    ensures "_approved_workflows" in e.metadata ==> InContext(e, agent) == e
  {}

  /** Seconds as the token prints them. */
  function ExpiryOf(cfg: Config, now: Instant, s: AutonomyStatus): string
    requires TtlFits(cfg, now)
  {
    if s == SampleReview then Iso(now + cfg.sampledTtl * 1_000_000) else Iso(now + cfg.allowedTtl * 1_000_000)
  }

  ghost predicate GrantedTerms(cfg: Config, e: Event, around: Around, t: Token) {
    && TokenScope(t) == ScopeOf(e) && t.maxConsequenceRank == ConsequenceRank(e.authority)
    && t.conditions == (if around.pick.Picked? then around.pick.rule.conditions else [])
    && t.singleUse && t.eventId == Some(e.eventId) && t.tokenId == around.tokenId
    && (Sound(cfg.issuer) ==> SignatureValid(cfg.issuer, t))
  }

  /** What a token granted for an event says: its scope, at most its class's rank, the conditions of the
      looked-up rule, one use, until the time-to-live of the decision. */
  ghost predicate GrantedToken(cfg: Config, e: Event, around: Around, s: AutonomyStatus, t: Token)
    requires TtlFits(cfg, around.now)
  {
    GrantedTerms(cfg, e, around, t) && t.expiresAt == ExpiryOf(cfg, around.now, s)
  }

  lemma ExpiryIsTtl(cfg: Config, now: Instant, s: AutonomyStatus)
    requires TtlFits(cfg, now) && s in {Allowed, SampleReview}
    ensures ExpiryOf(cfg, now, s) == Iso(now + Ttl(cfg, s) * SECOND)
  {
    assert SECOND == 1_000_000;
  }

  lemma MintedTerms(cfg: Config, e: Event, around: Around, s: AutonomyStatus)
    requires TtlFits(cfg, around.now)
    ensures var t := MintedToken(cfg, e, PickedRule(around.pick), s, around);
            GrantedTerms(cfg, e, around, t) && t.expiresAt == Iso(around.now + Ttl(cfg, s) * SECOND)
  {
    MintageSays(cfg.issuer, ScopeOf(e), RuleConditions(PickedRule(around.pick)), around.now, Ttl(cfg, s), true,
                Some(e.eventId), around.tokenId, around.tokenNonce);
  }

  lemma MintedTokenIsGranted(cfg: Config, e: Event, around: Around, s: AutonomyStatus)
    requires TtlFits(cfg, around.now) && s in {Allowed, SampleReview}
    ensures GrantedToken(cfg, e, around, s, MintedToken(cfg, e, PickedRule(around.pick), s, around))
  {
    ExpiryIsTtl(cfg, around.now, s);
    MintedTerms(cfg, e, around, s);
  }

  /** The token, if there is one, is granted by the decision and put on record; otherwise no token is. */
  ghost predicate TokenAnswer(cfg: Config, caps: TokenStore, e: Event, around: Around, reply: Planes.Reply, caps': TokenStore)
    requires TtlFits(cfg, around.now)
  {
    if reply.Proposed? && reply.token.Some? then
      && reply.decision.status in {Allowed, SampleReview}
      && GrantedToken(cfg, e, around, reply.decision.status, reply.token.value)
      && Recorded(caps') == Recorded(caps) + {around.tokenId}
      && (around.tokenId !in Recorded(caps) ==>
            Info(caps', around.tokenId) == Issued(ScopeOf(e), ExpiryOf(cfg, around.now, reply.decision.status)))
    else
      caps' == caps && (reply.Proposed? ==> reply.decision.status in {ApprovalRequired, Escalate, Blocked})
  }

  lemma ConclusionAnswers(cfg: Config, p: Plane, e: Event, around: Around)
    requires e.agentId in p.agents && p.accepted != [] && TtlFits(cfg, around.now)
    ensures
      var r := Conclude(cfg, p, e, around);
      && TokenAnswer(cfg, p.caps, e, around, r.1, r.0.caps)
      && DecisionOn(cfg, p, e, around) == if r.1.Proposed? then Some(r.1.decision) else None
  {
    var d := DecisionOn(cfg, p, e, around);
    if d.Some? && Grants(d.value.status) {
      var g := NewGrant(cfg, p, e, d.value.status, around);
      MintedTokenIsGranted(cfg, e, around, d.value.status);
      assert Conclude(cfg, p, e, around) == (Minted(p, g), Proposed(d.value, Some(g.token)));
      RecordEffect(p.caps, g.token.tokenId, Issued(TokenScope(g.token), g.token.expiresAt));
    }
  }

  /** An accepted event is decided by the policy on its stored level and looked-up rule, and a token
      comes with the answer, and goes on record, exactly when that decision grants. */
  lemma ProposalAnswers(cfg: Config, p: Plane, e: Event, around: Around)
    requires TtlFits(cfg, around.now) && Admissible(cfg, p, e)
    ensures
      var r := Propose(cfg, p, e, around);
      var agent := r.0.agents[e.agentId];
      var rule := if around.pick.Picked? then Some(around.pick.rule) else None;
      var d := Evaluate(cfg.boundaries, InContext(e, agent), agent.AutonomyFor(e.workflowId, e.authority), around.risk, rule);
      && (r.1 == Denied(RaisedTypeError) <==> around.pick.PickRaises? || d.None?)
      && (r.1.Proposed? ==> d == Some(r.1.decision))
      && TokenAnswer(cfg, p.caps, e, around, r.1, r.0.caps)
  {
    RefusesUnlessAdmissible(cfg, p, e);
    ConclusionAnswers(cfg, Accept(Enrolled(cfg, p, e), e), e, around);
    ConcludeKeeps(cfg, Accept(Enrolled(cfg, p, e), e), e, around);
  }

  // ---------- decisions of humans ----------

  /** The owner of the agent approves, with or without edits, what asks for somebody else. */
  predicate OwnersApproval(p: Plane, e: Event, approver: string, o: Outcome) {
    && ConsequenceRank(e.authority) >= 4 && Legal !in Consequences(e.authority) && e.authority != CommitCommercialPosition
    && e.agentId in p.agents && p.agents[e.agentId].ownerId == approver
    && o !in {Rejected, MoreEvidenceRequested, Escalated}
  }

  lemma OwnersApprovalIs(p: Plane, e: Event, approver: string, o: Outcome)
    ensures OwnerApproval(p, e, approver, o) <==> OwnersApproval(p, e, approver, o)
  {
    DutiesByRank(e.authority);
  }

  /** A decision is answered by what stands against it, in this order, or is counted; the answer to a
      counted one is the recommendation asked for right afterwards. Nothing but the trust record of the
      event's scope changes. */
  lemma SubmitAnswers(p: Plane, id: string, approver: string, o: Outcome, engine: R.Engine)
    ensures
      var r := Submit(p, id, approver, o, engine);
      && r.0 == p.(memory := r.0.memory)
      && (r.1 in {UnknownEvent, OwnerMayNotApprove} ==> r.0 == p)
      && (r.1 == UnknownEvent <==> id !in p.events)
      && (id in p.events ==>
            var e := p.events[id];
            var k := ScopeOf(e);
            && (r.1 == OwnerMayNotApprove <==> OwnersApproval(p, e, approver, o))
            && (r.1 == AlreadyDecided <==> !OwnersApproval(p, e, approver, o) && id in Read(p.memory, k).decided)
            && (r.1 == AlreadyDecided ==> Read(r.0.memory, k) == Read(p.memory, k))
            && (r.1.DecisionCounted? ==> RecommendFor(r.0, k, engine) == (r.0, Some(r.1.rec)))
            && (forall k' :: k' != k ==> Read(r.0.memory, k') == Read(p.memory, k')))
  {
    if id in p.events {
      OwnersApprovalIs(p, p.events[id], approver, o);
    }
  }

  /** Asking for a recommendation reads the stored level and the trust record, and changes neither. */
  lemma RecommendReads(p: Plane, k: Scope, engine: R.Engine)
    ensures
      var r := RecommendFor(p, k, engine);
      && r.0 == p.(memory := r.0.memory)
      && (forall k' :: Read(r.0.memory, k') == Read(p.memory, k'))
      && (r.1.Some? <==> k.agentId in p.agents)
      && (r.1.Some? ==> r.1.value == engine(k, p.agents[k.agentId].AutonomyFor(k.workflowId, k.authority), Read(p.memory, k)))
  {}

  /** The stored level is the one last set for the workflow and class, and the bottom where none was. */
  lemma StoredLevels(a: Agent, w: string, c: AuthorityClass, level: Level, w': string, c': AuthorityClass)
    ensures a.SetAutonomy(w, c, level).AutonomyFor(w', c') == if w == w' && c == c' then level else a.AutonomyFor(w', c')
    ensures a.autonomy == map[] ==> a.AutonomyFor(w, c) == 0
  {
    if w != w' || c != c' { KeysDiffer(w, c, w', c'); }
  }

  lemma KeysDiffer(w: string, c: AuthorityClass, w': string, c': AuthorityClass)
    requires w != w' || c != c'
    ensures ScopeKey(w, c) != ScopeKey(w', c')
  {
    if ScopeKey(w, c) == ScopeKey(w', c') { ScopeKeysDiffer(w, c, w', c'); }
  }

  // ---------- rules ----------

  /** The highest level a rule for a class may be approved at, by the consequences of the class: 7 up to
      rank 2, 5 at rank 3, 4 at ranks 4 and 5, 3 above, 0 for legal consequences. */
  lemma ApprovalAnswers(p: Plane, r: Rule, approver: string)
    ensures
      var rank := ConsequenceRank(r.authority);
      var legal := Legal in Consequences(r.authority);
      var (p', answer) := ApproveRule(p, r, approver);
      && (answer == AboveCeiling <==>
            || (legal && r.level > 0)
            || (rank == 3 && r.level > 5)
            || (4 <= rank <= 5 && r.level > 4)
            || (rank >= 6 && r.level > 3))
      && (answer == OwnerMayNotDelegate <==>
            && answer != AboveCeiling
            && rank >= 4 && !legal && r.authority != CommitCommercialPosition
            && r.agentId in p.agents && p.agents[r.agentId].ownerId == approver)
      && (answer.RuleStored? ==>
            && answer.rule == r.(createdBy := Some(approver))
            && p' == p.(rules := p.rules[r.ruleId := answer.rule]))
      && (!answer.RuleStored? ==> p' == p)
  {
    RiskByRank(r.authority);
    LegalIsBlocked(r.authority);
    DutiesByRank(r.authority);
  }

  // ---------- incidents ----------

  /** What an incident does to the agents: one more on the registered agent, whose levels change besides. */
  ghost predicate OneMoreIncident(p: Plane, p': Plane, agentId: string) {
    && p'.agents.Keys == p.agents.Keys
    && (forall id :: id in p.agents && id != agentId ==> p'.agents[id] == p.agents[id])
    && (agentId in p.agents ==>
          p'.agents[agentId] == p.agents[agentId].(autonomy := p'.agents[agentId].autonomy,
                                                   incidentCount := p.agents[agentId].incidentCount + 1))
  }

  /** What an incident does to the rules: it ends the active ones of the scope of a registered agent. */
  ghost predicate RulesEnded(p: Plane, p': Plane, k: Scope, reason: string) {
    && p'.rules.Keys == p.rules.Keys
    && forall id :: id in p.rules ==>
         p'.rules[id] ==
         if k.agentId in p.agents && RuleScope(p.rules[id]) == k && p.rules[id].active
         then p.rules[id].(active := false, revokedReason := Some("auto-revoked by incident: " + reason))
         else p.rules[id]
  }

  lemma IncidentParts(p: Plane, k: Scope, reason: string)
    ensures
      var p' := Incident(p, k, reason);
      && p' == p.(memory := AddIncident(p.memory, k), caps := RevokeScope(p.caps, k), agents := p'.agents, rules := p'.rules)
      && p'.agents == (if k.agentId in p.agents then p.agents[k.agentId := Demoted(p.agents[k.agentId], k)] else p.agents)
      && p'.rules == (if k.agentId in p.agents then Quarantined(p.rules, k, reason) else p.rules)
  {}

  lemma IncidentRules(p: Plane, k: Scope, reason: string)
    ensures RulesEnded(p, Incident(p, k, reason), k, reason)
  {
    IncidentParts(p, k, reason);
    QuarantinedRules(p.rules, k, reason);
  }

  lemma QuarantinedRules(rules: map<string, Rule>, k: Scope, reason: string)
    ensures
      var after := Quarantined(rules, k, reason);
      && after.Keys == rules.Keys
      && forall id :: id in rules ==>
           after[id] ==
           if RuleScope(rules[id]) == k && rules[id].active
           then rules[id].(active := false, revokedReason := Some("auto-revoked by incident: " + reason))
           else rules[id]
  {}

  lemma IncidentAgents(p: Plane, k: Scope, reason: string)
    ensures OneMoreIncident(p, Incident(p, k, reason), k.agentId)
  {
    IncidentParts(p, k, reason);
  }

  /** An incident is one more in the record of its scope and, for a registered agent, one more on the
      agent and the end of the scope's active rules; it revokes the scope's tokens that are not used up.
      Nothing else changes: not the other records, other agents, other scopes' rules or tokens, nor the
      events. */
  lemma IncidentTouches(p: Plane, k: Scope, reason: string)
    ensures
      var p' := Incident(p, k, reason);
      && p' == p.(memory := p'.memory, caps := p'.caps, agents := p'.agents, rules := p'.rules)
      && (forall k' :: Read(p'.memory, k') ==
            if k' == k then Read(p.memory, k).(incidents := Read(p.memory, k).incidents + 1) else Read(p.memory, k'))
      && OneMoreIncident(p, p', k.agentId) && RulesEnded(p, p', k, reason)
      && (forall id :: IsRevoked(p'.caps, id) <==>
            IsRevoked(p.caps, id) || (id in Recorded(p.caps) && Info(p.caps, id).scope == k && !IsConsumed(p.caps, id)))
  {
    IncidentParts(p, k, reason);
    IncidentAgents(p, k, reason);
    IncidentRules(p, k, reason);
    RevokeScopeEffect(p.caps, k);
  }

  /** Revoking a rule deactivates that rule with the reason given, revokes the unused tokens of its scope,
      and changes nothing else; an unknown rule changes nothing. */
  lemma RevocationTouches(p: Plane, ruleId: string, reason: string)
    requires ruleId in p.rules ==> p.rules[ruleId].ruleId == ruleId
    ensures
      var p' := RevokeRule(p, ruleId, reason);
      && p' == p.(rules := p'.rules, caps := p'.caps)
      && (ruleId !in p.rules ==> p' == p)
      && (ruleId in p.rules ==>
            && p'.rules == p.rules[ruleId := p.rules[ruleId].(active := false, revokedReason := Some(reason))]
            && forall id :: IsRevoked(p'.caps, id) <==>
                 IsRevoked(p.caps, id)
                 || (id in Recorded(p.caps) && Info(p.caps, id).scope == RuleScope(p.rules[ruleId]) && !IsConsumed(p.caps, id)))
  {
    if ruleId in p.rules { RevokeScopeEffect(p.caps, RuleScope(p.rules[ruleId])); }
  }

  // ---------- the client's context ----------

  /** An override wins over the event's metadata; the rank of the class stands in where neither declares
      one. */
  lemma ContextLaw(metadata: Dict, overrides: Dict, authority: AuthorityClass, key: string)
    ensures
      var context := ActionContext(metadata, overrides, authority);
      && (key in overrides ==> key in context && context[key] == overrides[key])
      && (key !in overrides && key in metadata ==> key in context && context[key] == metadata[key])
      && (key !in overrides && key !in metadata ==>
            if key == "consequence_rank" then key in context && context[key] == Num(ConsequenceRank(authority))
            else key !in context)
  {}

  // ---------- purging ----------

  /** A purge at a time drops exactly the tokens that expired before it: the strings it compares are in
      the order of the instants they print. */
  lemma PurgeDropsExpired(s: TokenStore, id: string, expires: Instant, now: Instant)
    requires id in Recorded(s) && Info(s, id).expires == Iso(expires)
    ensures id in Recorded(Purge(s, Iso(now))) <==> now <= expires
  {
    PurgeEffect(s, Iso(now));
    IsoOrder(expires, now);
  }
}
