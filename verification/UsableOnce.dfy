/** A grant is usable exactly once. */
module UsableOnce {
  import opened Options
  import opened JsonValues
  import opened Instants
  import opened Ontology
  import opened Models
  import opened Conditions
  import opened Tokens
  import opened TokenStates
  import opened Capabilities
  import opened Planes
  import opened Machine
  import opened Provenance
  import opened Ceilings
  import opened Quarantine
  import opened Sdk

  /** The token carries the rank of its class and the conditions of the rule behind it, if any, and those
      held for its event. */
  ghost predicate Usable(g: Grant) {
    && g.token.maxConsequenceRank == ConsequenceRank(g.event.authority)
    && g.token.conditions == (if g.rule.Some? then g.rule.value.conditions else [])
    && CheckAll(g.token.conditions, g.event.metadata) == Yes
  }

  lemma MintedTokenTerms(cfg: Config, e: Event, rule: Option<Rule>, s: AutonomyStatus, around: Around)
    requires TtlFits(cfg, around.now)
    ensures
      var t := MintedToken(cfg, e, rule, s, around);
      && t.maxConsequenceRank == ConsequenceRank(e.authority)
      && t.conditions == RuleConditions(rule)
      && t.expiresAt == Iso(around.now + Ttl(cfg, s) * SECOND)
  {
    MintageSays(cfg.issuer, ScopeOf(e), RuleConditions(rule), around.now, Ttl(cfg, s), true, Some(e.eventId),
                around.tokenId, around.tokenNonce);
  }

  lemma ProposedUsable(cfg: Config, p: Plane, e: Event, around: Around)
    requires TtlFits(cfg, around.now) && LegalPick(p.rules, e, around.pick) && ProposalGrants(cfg, p, e, around)
    ensures Usable(ProposalGrant(cfg, p, e, around))
  {
    MintedTokenTerms(cfg, e, PickedRule(around.pick), ProposalDecision(cfg, p, e, around).value.status, around);
  }

  ghost predicate AllUsable(p: Plane) {
    forall i :: 0 <= i < |p.grants| ==> Usable(p.grants[i])
  }

  lemma StepKeepsUsable(cfg: Config, w: World, step: Step)
    requires LegalStep(cfg, w, step) && AllUsable(w.plane)
    ensures AllUsable(Perform(cfg, w, step).plane)
  {
    if step.DoPropose? {
      ProposeMints(cfg, w.plane, step.event, step.around);
      if ProposalGrants(cfg, w.plane, step.event, step.around) { ProposedUsable(cfg, w.plane, step.event, step.around); }
    } else {
      OnlyProposalsMint(cfg, w, step);
    }
  }

  lemma {:induction false} RunKeepsUsable(cfg: Config, w: World, steps: seq<Step>)
    requires LegalRun(cfg, w, steps) && AllUsable(w.plane)
    ensures AllUsable(RunOf(cfg, w, steps).plane)
    decreases |steps|
  {
    if steps != [] {
      StepKeepsUsable(cfg, w, steps[0]);
      RunKeepsUsable(cfg, Perform(cfg, w, steps[0]), steps[1..]);
    }
  }

  /** The metadata the client holds: what it sent, and in process also the workflows the control plane
      added to it. */
  predicate ClientMetadata(sent: Dict, held: Dict) {
    held == sent || ("_approved_workflows" !in sent && "_approved_workflows" in held && held - {"_approved_workflows"} == sent)
  }

  /** The event declares no rank of its own, or one that its class allows. */
  predicate DeclaredRankFits(e: Event) {
    var rank := Get(e.metadata, "consequence_rank");
    rank == Null || PyLess(Num(ConsequenceRank(e.authority)), rank) == Some(false)
  }

  /** The keys the client's context may hold without the event having declared them, and what it holds
      there. */
  predicate Derived(key: string, sent: Dict) {
    key in {"consequence_rank", "_approved_workflows"} && key !in sent
  }

  function DerivedValue(key: string, held: Dict, authority: AuthorityClass): Json {
    if key == "consequence_rank" then Num(ConsequenceRank(authority)) else Get(held, key)
  }

  /** The conditions on such keys hold for the derived values too. */
  ghost predicate DerivedConditionsHold(conditions: seq<Field>, sent: Dict, held: Dict, authority: AuthorityClass) {
    forall f :: f in conditions && Derived(f.key, sent) ==> CheckOne(f.value, DerivedValue(f.key, held, authority)) == Yes
  }

  lemma ContextValue(sent: Dict, held: Dict, authority: AuthorityClass, key: string)
    requires ClientMetadata(sent, held)
    ensures Get(ActionContext(held, map[], authority), key) ==
            if Derived(key, sent) then DerivedValue(key, held, authority) else Get(sent, key)
  {
    if key in sent { assert held[key] == sent[key]; }
    if key !in sent && key != "_approved_workflows" { assert key !in held; }
  }

  /** What matched at proposal still holds for the context the client builds without overrides, exactly
      when the conditions on keys it derives do. */
  lemma ConditionsCarryOver(g: Grant, held: Dict)
    requires Usable(g) && ClientMetadata(g.event.metadata, held)
    ensures CheckAll(g.token.conditions, ActionContext(held, map[], g.event.authority)) == Yes <==>
            DerivedConditionsHold(g.token.conditions, g.event.metadata, held, g.event.authority)
  {
    var context := ActionContext(held, map[], g.event.authority);
    CheckAllMeansEach(g.token.conditions, g.event.metadata);
    CheckAllMeansEach(g.token.conditions, context);
    forall f | f in g.token.conditions
      ensures CheckOne(f.value, Get(context, f.key)) == Yes <==>
              (Derived(f.key, g.event.metadata) ==> CheckOne(f.value, DerivedValue(f.key, held, g.event.authority)) == Yes)
    {
      ContextValue(g.event.metadata, held, g.event.authority, f.key);
    }
  }

  lemma RankCarriesOver(g: Grant, held: Dict)
    requires Usable(g) && ClientMetadata(g.event.metadata, held)
    ensures RankCheck(g.token, ActionContext(held, map[], g.event.authority)) == Accepted <==> DeclaredRankFits(g.event)
  {
    var context := ActionContext(held, map[], g.event.authority);
    if "consequence_rank" in g.event.metadata {
      assert held["consequence_rank"] == g.event.metadata["consequence_rank"];
      assert context["consequence_rank"] == g.event.metadata["consequence_rank"];
    } else {
      assert "consequence_rank" !in held;
      assert context["consequence_rank"] == Num(ConsequenceRank(g.event.authority));
    }
  }

  /** First use. In any reachable world a minted token that is unexpired, unrevoked and unused is
      accepted for its own event exactly when the event does not claim a higher rank than its class and
      the rule's conditions on keys the client derives hold for the derived values. */
  lemma FirstUse(cfg: Config, w: World, i: nat, held: Dict)
    requires Valid(cfg, w) && AllUsable(w.plane) && i < |w.plane.grants|
    requires ClientMetadata(w.plane.grants[i].event.metadata, held)
    requires !Dead(w.plane.caps, w.clock, w.plane.grants[i].token)
    ensures
      var g := w.plane.grants[i];
      var context := ActionContext(held, map[], g.event.authority);
      VerifyForAction(cfg.issuer, w.plane.caps, g.token, ScopeOf(g.event), context, w.clock).0 == Accepted
      <==> DeclaredRankFits(g.event)
           && DerivedConditionsHold(g.token.conditions, g.event.metadata, held, g.event.authority)
  {
    var g := w.plane.grants[i];
    var context := ActionContext(held, map[], g.event.authority);
    assert GrantMatches(cfg, w.plane, g) && Usable(g);
    RankCarriesOver(g, held);
    ConditionsCarryOver(g, held);
    CheckAllMeansEach(g.token.conditions, context);
    NotDeadCanConsume(w, i);
    AcceptedMeansInScope(cfg.issuer, w.plane.caps, g.token, ScopeOf(g.event), context, w.clock);
  }

  /** A token that is not dead is still on record, so either store will consume it. */
  lemma NotDeadCanConsume(w: World, i: nat)
    requires StoreMatches(w.plane, w.clock) && i < |w.plane.grants|
    requires !Dead(w.plane.caps, w.clock, w.plane.grants[i].token)
    ensures CanConsume(w.plane.caps, w.plane.grants[i].token.tokenId)
  {}

  /** Right after a proposal its token is such a token, when its lifetime is positive. */
  lemma FreshGrantIsAlive(cfg: Config, p: Plane, e: Event, around: Around)
    requires TtlFits(cfg, around.now) && FreshToken(p, around.tokenId)
    requires ProposalGrants(cfg, p, e, around) && cfg.allowedTtl > 0 && cfg.sampledTtl > 0
    ensures !Dead(Propose(cfg, p, e, around).0.caps, around.now, ProposalGrant(cfg, p, e, around).token)
  {
    ProposeCaps(cfg, p, e, around);
    NewGrantIsAlive(cfg, p, Accept(Enrolled(cfg, p, e), e), e, ProposalDecision(cfg, p, e, around).value.status, around);
  }

  lemma NewGrantIsAlive(cfg: Config, p: Plane, p2: Plane, e: Event, s: AutonomyStatus, around: Around)
    requires TtlFits(cfg, around.now) && FreshToken(p, around.tokenId) && cfg.allowedTtl > 0 && cfg.sampledTtl > 0
    requires e.agentId in p2.agents && p2.accepted != []
    ensures !Dead(Record(p.caps, NewGrant(cfg, p2, e, s, around).token), around.now, NewGrant(cfg, p2, e, s, around).token)
  {
    MintedIsAlive(cfg, p, e, PickedRule(around.pick), s, around);
  }

  lemma MintedIsAlive(cfg: Config, p: Plane, e: Event, rule: Option<Rule>, s: AutonomyStatus, around: Around)
    requires TtlFits(cfg, around.now) && FreshToken(p, around.tokenId) && cfg.allowedTtl > 0 && cfg.sampledTtl > 0
    ensures !Dead(Record(p.caps, MintedToken(cfg, e, rule, s, around)), around.now, MintedToken(cfg, e, rule, s, around))
  {
    var t := MintedToken(cfg, e, rule, s, around);
    MintedTokenTerms(cfg, e, rule, s, around);
    MintedTokenId(cfg, e, rule, s, around);
    PositiveTtl(cfg, around.now, s);
    RecordedIsAlive(p.caps, around.now, t, around.now + Ttl(cfg, s) * SECOND);
  }

  lemma MintedTokenId(cfg: Config, e: Event, rule: Option<Rule>, s: AutonomyStatus, around: Around)
    requires TtlFits(cfg, around.now)
    ensures MintedToken(cfg, e, rule, s, around).tokenId == around.tokenId
  {}

  lemma PositiveTtl(cfg: Config, now: Instant, s: AutonomyStatus)
    requires TtlFits(cfg, now) && cfg.allowedTtl > 0 && cfg.sampledTtl > 0
    ensures now < now + Ttl(cfg, s) * SECOND < MAX_INSTANT
  {}

  lemma RecordedIsAlive(caps: TokenStore, now: Instant, t: Token, expires: Instant)
    requires now < expires && t.expiresAt == Iso(expires)
    requires !IsConsumed(caps, t.tokenId) && !IsRevoked(caps, t.tokenId)
    ensures !Dead(Record(caps, t), now, t)
  {
    assert FromIso(t.expiresAt) == Some(expires);
  }

  /** An accepted presentation leaves its token dead. */
  lemma AcceptedIsSpent(cfg: Config, w: World, t: Token, action: Scope, context: Dict) returns (i: nat)
    requires Sound(cfg.issuer) && Valid(cfg, w) && Unforged(cfg, w.plane, t)
    requires VerifyForAction(cfg.issuer, w.plane.caps, t, action, context, w.clock).0 == Accepted
    ensures i < |w.plane.grants| && w.plane.grants[i].token.tokenId == t.tokenId
    ensures Dead(TryConsume(w.plane.caps, t.tokenId), w.clock, w.plane.grants[i].token)
  {
    i := AcceptedTokenWasMinted(cfg, w.plane, t);
    AcceptedMeansInScope(cfg.issuer, w.plane.caps, t, action, context, w.clock);
    assert GrantMatches(cfg, w.plane, w.plane.grants[i]);
    ConsumeOnce(w.plane.caps, t.tokenId);
  }

  /** A dead token stays refused: no presentation of it, nor of any other token with its id, is ever
      accepted again, in any context, after any further steps. */
  lemma DeadForever(cfg: Config, w: World, steps: seq<Step>, i: nat, t: Token, action: Scope, context: Dict)
    requires Sound(cfg.issuer) && Valid(cfg, w) && LegalRun(cfg, w, steps)
    requires i < |w.plane.grants| && Dead(w.plane.caps, w.clock, w.plane.grants[i].token)
    requires Unforged(cfg, RunOf(cfg, w, steps).plane, t) && t.tokenId == w.plane.grants[i].token.tokenId
    ensures var w' := RunOf(cfg, w, steps);
            VerifyForAction(cfg.issuer, w'.plane.caps, t, action, context, w'.clock).0 != Accepted
  {
    var w' := RunOf(cfg, w, steps);
    RunKeepsDead(cfg, w, steps, i);
    RunKeepsValid(cfg, w, steps);
    if SignatureValid(cfg.issuer, t) {
      var j := AcceptedTokenWasMinted(cfg, w'.plane, t);
      assert j == i;
      assert GrantMatches(cfg, w'.plane, w'.plane.grants[i]);
      DeadIsRefused(cfg, w'.plane, w'.clock, t, w'.plane.grants[i].token, action, context);
    }
  }

  /** Later uses. Once a presentation was accepted no later one is, whatever happens in between. */
  lemma LaterUses(cfg: Config, w: World, t: Token, action: Scope, context: Dict, steps: seq<Step>,
                  t': Token, action': Scope, context': Dict)
    requires Sound(cfg.issuer) && Valid(cfg, w) && LegalStep(cfg, w, DoExecute(t, action, context))
    requires VerifyForAction(cfg.issuer, w.plane.caps, t, action, context, w.clock).0 == Accepted
    requires LegalRun(cfg, Perform(cfg, w, DoExecute(t, action, context)), steps)
    requires Unforged(cfg, RunOf(cfg, Perform(cfg, w, DoExecute(t, action, context)), steps).plane, t')
    requires t'.tokenId == t.tokenId
    ensures var w' := RunOf(cfg, Perform(cfg, w, DoExecute(t, action, context)), steps);
            VerifyForAction(cfg.issuer, w'.plane.caps, t', action', context', w'.clock).0 != Accepted
  {
    var i := AcceptedIsSpent(cfg, w, t, action, context);
    VerificationConsumes(cfg, w, t, action, context);
    StepKeepsValid(cfg, w, DoExecute(t, action, context));
    DeadForever(cfg, Perform(cfg, w, DoExecute(t, action, context)), steps, i, t', action', context');
  }

  lemma {:induction false} RunKeepsDead(cfg: Config, w: World, steps: seq<Step>, i: nat)
    requires Sound(cfg.issuer) && Valid(cfg, w) && LegalRun(cfg, w, steps)
    requires i < |w.plane.grants| && Dead(w.plane.caps, w.clock, w.plane.grants[i].token)
    ensures var w' := RunOf(cfg, w, steps);
            i < |w'.plane.grants| && w'.plane.grants[i] == w.plane.grants[i]
            && Dead(w'.plane.caps, w'.clock, w'.plane.grants[i].token)
    decreases |steps|
  {
    if steps != [] {
      StepKeepsValid(cfg, w, steps[0]);
      DeadStays(cfg, w, steps[0], i);
      RunKeepsDead(cfg, Perform(cfg, w, steps[0]), steps[1..], i);
    }
  }
}
