/** The state of the control plane and each of its operations as a function
    (earned_autonomy/core/control_plane.py, earned_autonomy/storage/memory.py).

    Choices the source leaves to its surroundings are arguments: the clock, fresh ids, and which of
    several matching rules a store returns first. */
module Planes {
  import opened Options
  import opened JsonValues
  import opened CanonicalProperties
  import opened Instants
  import opened Ontology
  import opened Models
  import opened Conditions
  import opened Signing
  import opened Policy
  import opened Tokens
  import opened Trust
  import opened Recommendations
  import opened TokenStates
  import opened Capabilities

  datatype Config = Config(
    strict: bool,
    allowedTtl: int,
    sampledTtl: int,
    boundaries: seq<BoundaryRule>,
    issuer: Issuer,
    eventPayload: Event -> Bytes)

  /** A minted token with the decision it came from; history only. `accepted` is the position of its
      event among the accepted ones. */
  datatype Grant = Grant(token: Token, event: Event, rule: Option<Rule>, level: Level, accepted: nat)

  datatype Plane = Plane(
    agents: map<string, Agent>,
    events: map<string, Event>,
    rules: map<string, Rule>,
    nonces: set<(string, string)>,
    memory: Memory,
    caps: TokenStore,
    accepted: seq<Event>,
    grants: seq<Grant>)

  // ---------- registration ----------

  predicate HasKey(a: Agent) {
    a.publicKey.Some? && a.publicKey.value != ""
  }

  function Register(cfg: Config, p: Plane, a: Agent): Plane {
    if cfg.strict && !HasKey(a) then p else p.(agents := p.agents[a.agentId := a])
  }

  // ---------- proposal ----------

  datatype Denial = UnknownAgent | InactiveAgent | Unsigned | BadSignature | ReplayedNonce | RaisedTypeError

  datatype Reply = Denied(reason: Denial) | Proposed(decision: Decision, token: Option<Token>)

  /** What a rule lookup may return for an event. */
  datatype Pick = NoRule | Picked(rule: Rule) | PickRaises

  /** Any matching rule may come first; a comparison that raises may be reached before it; nothing is
      returned only when nothing matches. */
  ghost predicate LegalPick(rules: map<string, Rule>, e: Event, pick: Pick) {
    match pick
    case NoRule => forall id :: id in rules ==> RuleMatches(rules[id], e) == No
    case Picked(r) => exists id :: id in rules && rules[id] == r && RuleMatches(r, e) == Yes
    case PickRaises => exists id :: id in rules && RuleMatches(rules[id], e) == Raises
  }

  /** The choices around one proposal: classifier risk, rule lookup, clock and fresh ids. */
  datatype Around = Around(risk: RiskLevel, pick: Pick, now: Instant, tokenId: string, tokenNonce: string)

  function AutoAgent(e: Event): Agent {
    Agent(e.agentId, e.humanOwnerId, None, [e.workflowId], map[], 0, true)
  }

  /** Outside strict mode an unknown agent is created on its first proposal. */
  function Enrolled(cfg: Config, p: Plane, e: Event): Plane {
    if e.agentId in p.agents || cfg.strict then p else p.(agents := p.agents[e.agentId := AutoAgent(e)])
  }

  /** The checks before the event is stored, in order. */
  function Refuses(cfg: Config, p: Plane, e: Event): Option<Denial> {
    if e.agentId !in p.agents then Some(UnknownAgent)
    else
      var agent := p.agents[e.agentId];
      if !agent.active then Some(InactiveAgent)
      else if cfg.strict && e.signature == None then Some(Unsigned)
      else if cfg.strict && (!HasKey(agent) || !Verify(agent.publicKey.value, cfg.eventPayload(e), e.signature.value)) then
        Some(BadSignature)
      else if (e.agentId, e.nonce) in p.nonces then Some(ReplayedNonce)
      else None
  }

  /** The nonce is claimed and the event stored. */
  function Accept(p: Plane, e: Event): Plane {
    p.(nonces := p.nonces + {(e.agentId, e.nonce)},
       events := p.events[e.eventId := e],
       accepted := p.accepted + [e])
  }

  function Strings(ss: seq<string>): seq<Json> {
    if ss == [] then [] else [Str(ss[0])] + Strings(ss[1..])
  }

  /** The guard context: the agent's approved workflows, unless the event brought its own. */
  function InContext(e: Event, agent: Agent): Event {
    if "_approved_workflows" in e.metadata then e
    else e.(metadata := e.metadata["_approved_workflows" := Arr(Strings(agent.approvedWorkflows))])
  }

  function PickedRule(pick: Pick): Option<Rule> {
    if pick.Picked? then Some(pick.rule) else None
  }

  function Ttl(cfg: Config, s: AutonomyStatus): int {
    if s == Allowed then cfg.allowedTtl else cfg.sampledTtl
  }

  function RuleConditions(rule: Option<Rule>): DictFields {
    match rule case None => [] case Some(r) => r.conditions
  }

  /** Expiry instants the calendar can hold; the source overflows beyond it. */
  predicate TtlFits(cfg: Config, now: Instant) {
    && 0 <= now + cfg.allowedTtl * SECOND < MAX_INSTANT
    && 0 <= now + cfg.sampledTtl * SECOND < MAX_INSTANT
  }

  function MintedToken(cfg: Config, e: Event, rule: Option<Rule>, s: AutonomyStatus, around: Around): Token
    requires TtlFits(cfg, around.now)
  {
    Mintage(cfg.issuer, ScopeOf(e), RuleConditions(rule), around.now, Ttl(cfg, s), true, Some(e.eventId),
            around.tokenId, around.tokenNonce)
  }

  function StoredLevel(p: Plane, e: Event): Level
    requires e.agentId in p.agents
  {
    p.agents[e.agentId].AutonomyFor(e.workflowId, e.authority)
  }

  /** The decision on an accepted event; None is a TypeError. */
  function DecisionOn(cfg: Config, p: Plane, e: Event, around: Around): Option<Decision>
    requires e.agentId in p.agents
  {
    if around.pick.PickRaises? then None
    else Evaluate(cfg.boundaries, InContext(e, p.agents[e.agentId]), StoredLevel(p, e), around.risk, PickedRule(around.pick))
  }

  /** The grant of a proposal whose decision grants; its event is the last accepted one. */
  function NewGrant(cfg: Config, p: Plane, e: Event, s: AutonomyStatus, around: Around): Grant
    requires e.agentId in p.agents && p.accepted != [] && TtlFits(cfg, around.now)
  {
    var rule := PickedRule(around.pick);
    Grant(MintedToken(cfg, e, rule, s, around), e, rule, StoredLevel(p, e), |p.accepted| - 1)
  }

  /** Minting records the token. */
  function Minted(p: Plane, g: Grant): Plane {
    p.(caps := Record(p.caps, g.token), grants := p.grants + [g])
  }

  /** The state once the event was accepted: with a token when the decision grants. */
  function Conclude(cfg: Config, p: Plane, e: Event, around: Around): (Plane, Reply)
    requires e.agentId in p.agents && p.accepted != [] && TtlFits(cfg, around.now)
  {
    match DecisionOn(cfg, p, e, around)
    case None => (p, Denied(RaisedTypeError))
    case Some(d) =>
      if !Grants(d.status) then (p, Proposed(d, None))
      else
        var g := NewGrant(cfg, p, e, d.status, around);
        (Minted(p, g), Proposed(d, Some(g.token)))
  }

  function Propose(cfg: Config, p: Plane, e: Event, around: Around): (Plane, Reply)
    requires TtlFits(cfg, around.now)
  {
    var p1 := Enrolled(cfg, p, e);
    match Refuses(cfg, p1, e)
    case Some(denial) => (p1, Denied(denial))
    case None => Conclude(cfg, Accept(p1, e), e, around)
  }

  // ---------- decisions, recommendations ----------

  datatype DecisionReply = UnknownEvent | OwnerMayNotApprove | AlreadyDecided | UnknownDecidedAgent | DecisionCounted(rec: Recommendation)

  predicate Approves(o: Outcome) {
    o.Approved? || o.ModifiedAndApproved? || o.ConvertedToDelegationRule?
  }

  predicate OwnerApproval(p: Plane, e: Event, approver: string, o: Outcome) {
    && RequiresSeparationOfDuties(e.authority)
    && e.agentId in p.agents && approver == p.agents[e.agentId].ownerId
    && Approves(o)
  }

  /** `submit_decision`: the separation check, the count, and the recommendation that follows. */
  function Submit(p: Plane, eventId: string, approver: string, o: Outcome, engine: Engine): (Plane, DecisionReply) {
    if eventId !in p.events then (p, UnknownEvent)
    else
      var e := p.events[eventId];
      var k := ScopeOf(e);
      var p' := p.(memory := Apply(p.memory, k, eventId, o));
      if OwnerApproval(p, e, approver, o) then (p, OwnerMayNotApprove)
      else if eventId in Read(p.memory, k).decided then (p', AlreadyDecided)
      else if e.agentId !in p.agents then (p', UnknownDecidedAgent)
      else (p', DecisionCounted(Recommendation(p', k, engine)))
  }

  function Recommendation(p: Plane, k: Scope, engine: Engine): Recommendations.Recommendation
    requires k.agentId in p.agents
  {
    engine(k, p.agents[k.agentId].AutonomyFor(k.workflowId, k.authority), Read(p.memory, k))
  }

  /** `recommend_for`, which leaves a record for the scope in the memory. */
  function RecommendFor(p: Plane, k: Scope, engine: Engine): (Plane, Option<Recommendations.Recommendation>) {
    if k.agentId !in p.agents then (p, None)
    else (p.(memory := Touch(p.memory, k)), Some(Recommendation(p, k, engine)))
  }

  // ---------- delegation rules ----------

  datatype RuleReply = AboveCeiling | OwnerMayNotDelegate | RuleStored(rule: Rule)

  function ApproveRule(p: Plane, r: Rule, approver: string): (Plane, RuleReply) {
    if r.level > Ceiling(r.authority) then (p, AboveCeiling)
    else if RequiresSeparationOfDuties(r.authority) && r.agentId in p.agents && approver == p.agents[r.agentId].ownerId then
      (p, OwnerMayNotDelegate)
    else
      var stored := r.(createdBy := Some(approver));
      (p.(rules := p.rules[r.ruleId := stored]), RuleStored(stored))
  }

  function RevokeRule(p: Plane, ruleId: string, reason: string): Plane {
    if ruleId !in p.rules then p
    else
      var r := p.rules[ruleId].(active := false, revokedReason := Some(reason));
      p.(rules := p.rules[r.ruleId := r], caps := RevokeScope(p.caps, RuleScope(r)))
  }

  // ---------- incidents ----------

  function Deactivated(r: Rule, reason: string): Rule {
    r.(active := false, revokedReason := Some("auto-revoked by incident: " + reason))
  }

  function Quarantined(rules: map<string, Rule>, k: Scope, reason: string): map<string, Rule> {
    map id | id in rules ::
      if RuleScope(rules[id]) == k && rules[id].active then Deactivated(rules[id], reason) else rules[id]
  }

  function Demoted(a: Agent, k: Scope): Agent {
    a.(incidentCount := a.incidentCount + 1)
     .SetAutonomy(k.workflowId, k.authority, MinLevel(a.AutonomyFor(k.workflowId, k.authority), EXECUTE_WITH_APPROVAL))
  }

  /** `record_incident`: rules are deactivated only for a registered agent, tokens always. */
  function Incident(p: Plane, k: Scope, reason: string): Plane {
    var p1 := p.(memory := AddIncident(p.memory, k), caps := RevokeScope(p.caps, k));
    if k.agentId !in p.agents then p1
    else p1.(agents := p.agents[k.agentId := Demoted(p.agents[k.agentId], k)], rules := Quarantined(p.rules, k, reason))
  }
}
