/** The control plane (earned_autonomy/core/control_plane.py): each method performs one of the
    operations of `Planes` on the shared objects and writes it to the ledger. */
module ControlPlanes {
  import opened Options
  import opened CanonicalProperties
  import opened Instants
  import opened Ontology
  import opened Models
  import opened Conditions
  import opened Signing
  import opened Policy
  import opened Tokens
  import opened T = Trust
  import opened TokenStates
  import opened Capabilities
  import opened CapabilityServices
  import opened MemoryStores
  import opened LedgerRecords
  import opened AuditLedgers
  import opened P = Planes
  import R = Recommendations

  /** What an operation writes besides type and actor: the rendered packet, a fresh id and the time. */
  datatype Note = Note(payload: DictFields, recordId: string, timestamp: string)

  /** One ledger entry: its type, its actor. */
  datatype Line = Line(eventType: string, actor: string)

  function EntryFor(line: Line, audit: string -> Note): Entry {
    var note := audit(line.eventType);
    Entry(line.eventType, note.payload, Some(line.actor), note.recordId, note.timestamp)
  }

  /** The entries of some lines. */
  function Entries(audit: string -> Note, lines: seq<Line>): seq<Entry> {
    seq(|lines|, i requires 0 <= i < |lines| => EntryFor(lines[i], audit))
  }

  /** Each line becomes one entry of its type, by its actor, with what was rendered for the type. */
  lemma EntriesSay(audit: string -> Note, lines: seq<Line>)
    ensures |Entries(audit, lines)| == |lines|
    ensures forall i :: 0 <= i < |lines| ==>
              var entry := Entries(audit, lines)[i];
              && entry.eventType == lines[i].eventType && entry.actorId == Some(lines[i].actor)
              && Note(entry.payload, entry.recordId, entry.timestamp) == audit(lines[i].eventType)
  {}

  method WriteLine(ledger: AuditLedger, audit: string -> Note, line: Line)
    modifies ledger
    ensures ledger.entries == old(ledger.entries) + Entries(audit, [line])
  {
    var _ := ledger.Append(EntryFor(line, audit));
  }

  lemma CountedEntries(written: seq<Entry>, audit: string -> Note, approver: string)
    ensures written + Entries(audit, [Line("approval.decision", approver)])
            + Entries(audit, [Line("autonomy.recommendation", "system")]) + Entries(audit, [Line("trust.updated", approver)])
            == written + Entries(audit, [Line("approval.decision", approver), Line("autonomy.recommendation", "system"),
                                         Line("trust.updated", approver)])
  {}

  /** Any store has a lookup answer for any event. */
  lemma SomePick(rules: map<string, Rule>, e: Event) returns (pick: Pick)
    ensures LegalPick(rules, e, pick)
  {
    if forall id :: id in rules ==> RuleMatches(rules[id], e) == No {
      pick := NoRule;
    } else {
      var id :| id in rules && RuleMatches(rules[id], e) != No;
      pick := if RuleMatches(rules[id], e) == Yes then Picked(rules[id]) else PickRaises;
    }
  }

  /** The rules an incident in a scope deactivates. */
  predicate Deactivates(rules: map<string, Rule>, k: Scope, id: string) {
    id in rules && RuleScope(rules[id]) == k && rules[id].active
  }

  /** The rules when the ones in `done` were visited. */
  function Visited(rules: map<string, Rule>, reason: string, done: set<string>): map<string, Rule> {
    map id | id in rules :: if id in done && rules[id].active then Deactivated(rules[id], reason) else rules[id]
  }

  lemma VisitOne(rules: map<string, Rule>, reason: string, done: set<string>, id: string)
    requires id in rules
    ensures Visited(rules, reason, done + {id}) ==
            if rules[id].active then Visited(rules, reason, done)[id := Deactivated(rules[id], reason)] else Visited(rules, reason, done)
  {
    var now, next := Visited(rules, reason, done), Visited(rules, reason, done + {id});
    forall other | other in rules && other != id ensures next[other] == now[other] {}
  }

  lemma VisitedAll(rules: map<string, Rule>, k: Scope, reason: string, done: set<string>)
    requires forall id :: id in rules ==> (id in done <==> RuleScope(rules[id]) == k)
    ensures Visited(rules, reason, done) == Quarantined(rules, k, reason)
  {
    forall id | id in rules ensures Visited(rules, reason, done)[id] == Quarantined(rules, k, reason)[id] {}
  }

  ghost predicate Covers(found: seq<Rule>, n: nat, done: set<string>)
    requires n <= |found|
  {
    forall j :: 0 <= j < n ==> found[j].ruleId in done
  }

  lemma CoversMore(found: seq<Rule>, n: nat, done: set<string>)
    requires n < |found| && Covers(found, n, done)
    ensures Covers(found, n + 1, done + {found[n].ruleId})
  {}

  lemma CoversAll(rules: map<string, Rule>, k: Scope, found: seq<Rule>, done: set<string>)
    requires forall id :: id in rules ==> rules[id].ruleId == id
    requires forall id :: id in rules && RuleScope(rules[id]) == k ==> rules[id] in found
    requires Covers(found, |found|, done)
    ensures forall id :: id in rules && RuleScope(rules[id]) == k ==> id in done
  {
    forall id | id in rules && RuleScope(rules[id]) == k ensures id in done {
      var j :| 0 <= j < |found| && found[j] == rules[id];
    }
  }

  /** The loop over the rules of a scope. */
  method DeactivateRules(store: InMemoryStore, k: Scope, reason: string) returns (deactivated: seq<string>)
    requires store.Valid()
    modifies store`rules, store`ruleOrder
    ensures store.Valid() && store.rules == Quarantined(old(store.rules), k, reason)
    ensures forall id :: id in deactivated <==> Deactivates(old(store.rules), k, id)
  {
    ghost var before := store.rules;
    var found := store.RulesFor(k);
    deactivated := [];
    ghost var done := {};
    for i := 0 to |found|
      invariant store.Valid() && store.rules == Visited(before, reason, done)
      invariant Covers(found, i, done)
      invariant forall id :: id in done ==> id in before && RuleScope(before[id]) == k
      invariant forall id :: id in deactivated <==> id in done && before[id].active
    {
      var rule := found[i];
      VisitOne(before, reason, done, rule.ruleId);
      CoversMore(found, i, done);
      done := done + {rule.ruleId};
      if rule.active {
        rule := Deactivated(rule, reason);
        store.AddRule(rule);
        deactivated := deactivated + [rule.ruleId];
      }
    }
    CoversAll(before, k, found, done);
    VisitedAll(before, k, reason, done);
  }

  class EarnedAutonomyControlPlane {
    const cfg: Config
    const store: InMemoryStore
    const memory: DelegationMemory
    const capabilities: CapabilityService
    const ledger: AuditLedger
    /** The state as `Planes` sees it; `Valid` ties it to the objects. */
    ghost var plane: Plane

    ghost function Parts(): set<object> {
      {store, memory} + capabilities.state.Footprint()
    }

    ghost function Footprint(): set<object> {
      {this, ledger} + Parts()
    }

    ghost predicate Valid()
      reads this, Parts()
    {
      Coherent() && plane.caps == capabilities.state.View()
    }

    /** All but the capability state, which enforcement points also change. */
    ghost predicate Coherent()
      reads this, store, memory
    {
      && {this, store, memory, ledger} !! capabilities.state.Footprint()
      && cfg.issuer == capabilities.issuer && store.Valid()
      && plane.agents == store.agents && plane.events == store.events
      && plane.rules == store.rules && plane.nonces == store.nonces
      && plane.memory == memory.stats
    }

    /** The view catches up with the shared capability state. */
    ghost method Refresh()
      requires Coherent()
      modifies this`plane
      ensures Valid() && plane == old(plane).(caps := capabilities.state.View())
    {
      plane := plane.(caps := capabilities.state.View());
    }

    constructor (cfg: Config, store: InMemoryStore, memory: DelegationMemory, capabilities: CapabilityService, ledger: AuditLedger)
      requires cfg.issuer == capabilities.issuer && store.Valid()
      ensures Valid() && this.store == store && this.memory == memory && this.capabilities == capabilities
      ensures this.ledger == ledger && this.cfg == cfg && plane.accepted == [] && plane.grants == []
    {
      this.cfg, this.store, this.memory, this.capabilities, this.ledger := cfg, store, memory, capabilities, ledger;
      plane := Plane(store.agents, store.events, store.rules, store.nonces, memory.stats, capabilities.state.View(), [], []);
    }

    method Log(audit: string -> Note, eventType: string, actor: string)
      requires Valid()
      modifies ledger
      ensures Valid()
      ensures ledger.entries == old(ledger.entries) + Entries(audit, [Line(eventType, actor)])
    {
      WriteLine(ledger, audit, Line(eventType, actor));
    }

    /** `ok` is false for the source's AuthenticationError. */
    method RegisterAgent(a: Agent, audit: string -> Note) returns (ok: bool)
      requires Valid()
      modifies Footprint()
      ensures Valid() && plane == P.Register(cfg, old(plane), a)
      ensures ok <==> !cfg.strict || HasKey(a)
      ensures ledger.entries == old(ledger.entries) + Entries(audit, if ok then [Line("agent.registered", a.ownerId)] else [])
    {
      if cfg.strict && !HasKey(a) {
        return false;
      }
      store.AddAgent(a);
      plane := P.Register(cfg, plane, a);
      Log(audit, "agent.registered", a.ownerId);
      return true;
    }

    /** The gate. `now`, `tokenId` and `tokenNonce` are the clock and fresh ids, `risk` is what the
        classifier found. */
    method ProposeEvent(e: Event, risk: RiskLevel, now: Instant, tokenId: string, tokenNonce: string, audit: string -> Note)
      returns (reply: P.Reply, ghost around: Around)
      requires Valid() && TtlFits(cfg, now)
      modifies Footprint()
      ensures Valid()
      ensures around == Around(risk, around.pick, now, tokenId, tokenNonce) && LegalPick(old(plane).rules, e, around.pick)
      ensures plane == P.Propose(cfg, old(plane), e, around).0
      ensures reply == P.Propose(cfg, old(plane), e, around).1
      ensures ledger.entries == old(ledger.entries) +
                Entries(audit, if reply.Proposed? then [Line("workflow.event.proposed", e.agentId)] else [])
    {
      ghost var some := SomePick(store.rules, e);
      around := Around(risk, some, now, tokenId, tokenNonce);
      ghost var enrolled := Enrolled(cfg, plane, e);
      var refusal := Admit(e);
      if refusal.Some? {
        return Denied(refusal.value), around;
      }
      reply, around := Decide(e, risk, now, tokenId, tokenNonce);
      if reply.Proposed? {
        Log(audit, "workflow.event.proposed", e.agentId);
      }
    }

    /** Outside strict mode an unknown agent is created on its first proposal. */
    method Enroll(e: Event) returns (agent: Option<Agent>)
      requires Valid()
      modifies this`plane, store`agents
      ensures Valid() && plane == Enrolled(cfg, old(plane), e)
      ensures agent == if e.agentId in plane.agents then Some(plane.agents[e.agentId]) else None
    {
      agent := store.GetAgent(e.agentId);
      if agent == None && !cfg.strict {
        agent := Some(AutoAgent(e));
        store.AddAgent(agent.value);
      }
      plane := Enrolled(cfg, plane, e);
    }

    /** Claims the nonce and stores the event. */
    method Claim(e: Event) returns (claimed: bool)
      requires Valid()
      modifies this`plane, store`nonces, store`events
      ensures Valid() && plane == if claimed then Accept(old(plane), e) else old(plane)
      ensures claimed <==> (e.agentId, e.nonce) !in old(plane).nonces
    {
      claimed := store.ClaimNonce(e.agentId, e.nonce);
      plane := plane.(nonces := plane.nonces + {(e.agentId, e.nonce)});
      if claimed {
        store.AddEvent(e);
        plane := plane.(events := plane.events[e.eventId := e], accepted := plane.accepted + [e]);
      }
    }

    /** Everything up to storing the event: registration, signature and nonce. */
    method Admit(e: Event) returns (refusal: Option<Denial>)
      requires Valid()
      modifies this`plane, store
      ensures Valid()
      ensures refusal == Refuses(cfg, Enrolled(cfg, old(plane), e), e)
      ensures plane == if refusal.Some? then Enrolled(cfg, old(plane), e) else Accept(Enrolled(cfg, old(plane), e), e)
    {
      var found := Enroll(e);
      if found == None {
        return Some(UnknownAgent);
      }
      var agent := found.value;
      if !agent.active {
        return Some(InactiveAgent);
      }
      if cfg.strict {
        if e.signature == None {
          return Some(Unsigned);
        }
        if !HasKey(agent) || !Verify(agent.publicKey.value, cfg.eventPayload(e), e.signature.value) {
          return Some(BadSignature);
        }
      }
      var claimed := Claim(e);
      return if claimed then None else Some(ReplayedNonce);
    }

    /** The decision on an accepted event, and its token. */
    method Decide(e: Event, risk: RiskLevel, now: Instant, tokenId: string, tokenNonce: string)
      returns (reply: P.Reply, ghost around: Around)
      requires Valid() && TtlFits(cfg, now) && e.agentId in plane.agents && plane.accepted != []
      modifies this`plane, capabilities.state.Footprint()
      ensures Valid()
      ensures around == Around(risk, around.pick, now, tokenId, tokenNonce) && LegalPick(old(plane).rules, e, around.pick)
      ensures plane == Conclude(cfg, old(plane), e, around).0
      ensures reply == Conclude(cfg, old(plane), e, around).1
    {
      var pick := store.MatchingRule(e);
      around := Around(risk, pick, now, tokenId, tokenNonce);
      var decided := Judge(e, risk, pick, around);
      if decided == None {
        return Denied(RaisedTypeError), around;
      }
      var status := decided.value.status;
      if status == Allowed || status == SampleReview {
        var token := MintFor(e, status, pick, now, tokenId, tokenNonce, around);
        return Proposed(decided.value, Some(token)), around;
      }
      return Proposed(decided.value, None), around;
    }

    /** The policy decision under the rule that was found; None is a TypeError. */
    method Judge(e: Event, risk: RiskLevel, pick: Pick, ghost around: Around) returns (decided: Option<Decision>)
      requires Valid() && e.agentId in plane.agents && around.risk == risk && around.pick == pick
      ensures decided == DecisionOn(cfg, plane, e, around)
    {
      if pick.PickRaises? {
        return None;
      }
      var agent := store.agents[e.agentId];
      var level := agent.AutonomyFor(e.workflowId, e.authority);
      decided := EvaluateEvent(cfg.boundaries, InContext(e, agent), level, risk, PickedRule(pick));
    }

    /** The token of a granting decision. */
    method MintFor(e: Event, status: AutonomyStatus, pick: Pick, now: Instant, tokenId: string, tokenNonce: string,
                   ghost around: Around)
      returns (token: Token)
      requires Valid() && TtlFits(cfg, now) && e.agentId in plane.agents && plane.accepted != []
      requires around == Around(around.risk, pick, now, tokenId, tokenNonce)
      modifies this`plane, capabilities.state.Footprint()
      ensures Valid() && plane == Minted(old(plane), NewGrant(cfg, old(plane), e, status, around))
      ensures token == NewGrant(cfg, old(plane), e, status, around).token
    {
      var ttl := Ttl(cfg, status);
      token := capabilities.Mint(ScopeOf(e), RuleConditions(PickedRule(pick)), ttl, true, Some(e.eventId), now, tokenId, tokenNonce);
      ghost var grant := NewGrant(cfg, plane, e, status, around);
      assert grant.token == token;
      plane := plane.(caps := Capabilities.Record(plane.caps, token), grants := plane.grants + [grant]);
    }

    /** Every outstanding token of the scope is revoked. */
    method RevokeTokens(k: Scope) returns (revoked: nat)
      requires Valid()
      modifies this`plane, capabilities.state.Footprint()
      ensures Valid() && plane == old(plane).(caps := RevokeScope(old(plane).caps, k))
      ensures revoked == |LiveIn(old(plane).caps, k)|
    {
      revoked := capabilities.RevokeScope(k);
      plane := plane.(caps := RevokeScope(plane.caps, k));
    }

    /** The agent is demoted and its rules for the scope are deactivated. */
    method Demote(agent: Agent, k: Scope, reason: string) returns (deactivated: seq<string>)
      requires Valid() && k.agentId in plane.agents && agent == plane.agents[k.agentId]
      modifies this`plane, store
      ensures Valid()
      ensures plane == old(plane).(agents := old(plane).agents[k.agentId := Demoted(agent, k)],
                                   rules := Quarantined(old(plane).rules, k, reason))
      ensures forall id :: id in deactivated <==> Deactivates(old(plane).rules, k, id)
    {
      var current := agent.AutonomyFor(k.workflowId, k.authority);
      var reduced := if current <= EXECUTE_WITH_APPROVAL then current else EXECUTE_WITH_APPROVAL;
      var demoted := agent.(incidentCount := agent.incidentCount + 1).SetAutonomy(k.workflowId, k.authority, reduced);
      StoreAgent(demoted);
      deactivated := QuarantineRules(k, reason);
    }

    method StoreAgent(a: Agent)
      requires Valid()
      modifies this`plane, store`agents
      ensures Valid() && plane == old(plane).(agents := old(plane).agents[a.agentId := a])
    {
      store.AddAgent(a);
      plane := plane.(agents := plane.agents[a.agentId := a]);
    }

    method QuarantineRules(k: Scope, reason: string) returns (deactivated: seq<string>)
      requires Valid()
      modifies this`plane, store`rules, store`ruleOrder
      ensures Valid() && plane == old(plane).(rules := Quarantined(old(plane).rules, k, reason))
      ensures forall id :: id in deactivated <==> Deactivates(old(plane).rules, k, id)
    {
      deactivated := DeactivateRules(store, k, reason);
      plane := plane.(rules := Quarantined(plane.rules, k, reason));
    }

    method StoreRule(r: Rule)
      requires Valid()
      modifies this`plane, store
      ensures Valid() && plane == old(plane).(rules := old(plane).rules[r.ruleId := r])
    {
      store.AddRule(r);
      plane := plane.(rules := plane.rules[r.ruleId := r]);
    }

    /** Whether the owner would be approving a consequential action of its own agent. */
    method OwnerApproves(e: Event, approver: string, outcome: Outcome) returns (b: bool)
      requires Valid()
      ensures b <==> OwnerApproval(plane, e, approver, outcome)
    {
      if !RequiresSeparationOfDuties(e.authority) {
        return false;
      }
      var agent := store.GetAgent(e.agentId);
      return agent.Some? && approver == agent.value.ownerId && Approves(outcome);
    }

    /** One decision goes into the trust memory. */
    method Count(k: Scope, eventId: string, outcome: Outcome) returns (replay: bool)
      requires Valid()
      modifies this`plane, memory
      ensures Valid() && plane == old(plane).(memory := Apply(old(plane).memory, k, eventId, outcome))
      ensures replay <==> eventId in Read(old(plane).memory, k).decided
    {
      var stats;
      replay, stats := memory.ApplyDecision(k, eventId, outcome);
      plane := plane.(memory := Apply(plane.memory, k, eventId, outcome));
    }

    method SubmitDecision(eventId: string, approver: string, outcome: Outcome, bound: R.Bound, ruleId: string,
                          ghost engine: R.Engine, audit: string -> Note)
      returns (reply: DecisionReply)
      requires Valid() && R.Recommends(engine, bound, ruleId)
      modifies Footprint()
      ensures Valid() && plane == P.Submit(old(plane), eventId, approver, outcome, engine).0
      ensures reply == P.Submit(old(plane), eventId, approver, outcome, engine).1
      ensures ledger.entries == old(ledger.entries) +
                Entries(audit, if reply.DecisionCounted? then
                                 [Line("approval.decision", approver), Line("autonomy.recommendation", "system"),
                                  Line("trust.updated", approver)]
                               else if reply.UnknownDecidedAgent? then [Line("approval.decision", approver)]
                               else [])
    {
      var found := store.GetEvent(eventId);
      if found == None {
        return UnknownEvent;
      }
      var e := found.value;
      var forbidden := OwnerApproves(e, approver, outcome);
      if forbidden {
        return OwnerMayNotApprove;
      }
      var replay := Count(ScopeOf(e), eventId, outcome);
      if replay {
        return AlreadyDecided;
      }
      var rec := Settle(ScopeOf(e), approver, bound, ruleId, engine, audit);
      return if rec == None then UnknownDecidedAgent else DecisionCounted(rec.value);
    }

    /** The records of a counted decision and the recommendation that follows it. */
    method Settle(k: Scope, approver: string, bound: R.Bound, ruleId: string, ghost engine: R.Engine, audit: string -> Note)
      returns (rec: Option<R.Recommendation>)
      requires Valid() && k in plane.memory && R.Recommends(engine, bound, ruleId)
      modifies this`plane, memory, ledger
      ensures Valid() && plane == old(plane)
      ensures rec == P.RecommendFor(plane, k, engine).1
      ensures ledger.entries == old(ledger.entries) +
                Entries(audit, if rec.Some? then
                                 [Line("approval.decision", approver), Line("autonomy.recommendation", "system"),
                                  Line("trust.updated", approver)]
                               else [Line("approval.decision", approver)])
    {
      Log(audit, "approval.decision", approver);
      rec := RecommendFor(k, bound, ruleId, engine, audit);
      if rec.Some? {
        Log(audit, "trust.updated", approver);
        CountedEntries(old(ledger.entries), audit, approver);
      }
    }

    /** `bound` is the Wilson bound, `ruleId` a fresh id, and `engine` names the answers they make. */
    method RecommendFor(k: Scope, bound: R.Bound, ruleId: string, ghost engine: R.Engine, audit: string -> Note)
      returns (rec: Option<R.Recommendation>)
      requires Valid() && R.Recommends(engine, bound, ruleId)
      modifies this`plane, memory, ledger
      ensures Valid() && plane == P.RecommendFor(old(plane), k, engine).0
      ensures rec == P.RecommendFor(old(plane), k, engine).1
      ensures ledger.entries == old(ledger.entries) +
                Entries(audit, if rec.Some? then [Line("autonomy.recommendation", "system")] else [])
    {
      var agent := store.GetAgent(k.agentId);
      if agent == None {
        return None;
      }
      var stats := memory.Get(k);
      plane := plane.(memory := Touch(plane.memory, k));
      var r := R.Advise(k, agent.value.AutonomyFor(k.workflowId, k.authority), stats, bound, ruleId, engine);
      Log(audit, "autonomy.recommendation", "system");
      return Some(r);
    }

    method ApproveDelegationRule(r: Rule, approver: string, audit: string -> Note) returns (reply: RuleReply)
      requires Valid()
      modifies Footprint()
      ensures Valid() && plane == P.ApproveRule(old(plane), r, approver).0
      ensures reply == P.ApproveRule(old(plane), r, approver).1
      ensures ledger.entries == old(ledger.entries) +
                Entries(audit, if reply.RuleStored? then [Line("delegation_rule.approved", approver)] else [])
    {
      var agent := store.GetAgent(r.agentId);
      if r.level > Ceiling(r.authority) {
        return AboveCeiling;
      }
      if RequiresSeparationOfDuties(r.authority) && agent.Some? && approver == agent.value.ownerId {
        return OwnerMayNotDelegate;
      }
      var stored := r.(createdBy := Some(approver));
      StoreRule(stored);
      Log(audit, "delegation_rule.approved", approver);
      return RuleStored(stored);
    }

    method RevokeDelegationRule(ruleId: string, actor: string, reason: string, audit: string -> Note) returns (ok: bool)
      requires Valid()
      modifies Footprint()
      ensures Valid() && plane == P.RevokeRule(old(plane), ruleId, reason)
      ensures ok <==> ruleId in old(plane).rules
      ensures ledger.entries == old(ledger.entries) + Entries(audit, if ok then [Line("delegation_rule.revoked", actor)] else [])
    {
      var found := store.GetRule(ruleId);
      if found == None {
        return false;
      }
      var rule := found.value.(active := false, revokedReason := Some(reason));
      StoreRule(rule);
      var _ := RevokeTokens(RuleScope(rule));
      Log(audit, "delegation_rule.revoked", actor);
      return true;
    }

    /** The incident shuts every path at once: level, rules and outstanding tokens. */
    method RecordIncident(k: Scope, reason: string, actor: string, audit: string -> Note)
      returns (deactivated: seq<string>, revokedTokens: nat)
      requires Valid()
      modifies Footprint()
      ensures Valid() && plane == P.Incident(old(plane), k, reason)
      ensures revokedTokens == |LiveIn(old(plane).caps, k)|
      ensures forall id :: id in deactivated <==> k.agentId in old(plane).agents && Deactivates(old(plane).rules, k, id)
      ensures ledger.entries == old(ledger.entries) + Entries(audit, [Line("incident.recorded", actor)])
    {
      var _ := memory.RecordIncident(k);
      plane := plane.(memory := AddIncident(plane.memory, k));
      var found := store.GetAgent(k.agentId);
      deactivated := [];
      if found.Some? {
        deactivated := Demote(found.value, k, reason);
      }
      revokedTokens := RevokeTokens(k);
      Log(audit, "incident.recorded", actor);
    }
  }
}
