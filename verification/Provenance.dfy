/** Every execution goes back to one minted token, every token to one accepted event, and every
    accepted event to one claimed nonce, in every run. */
module Provenance {
  import opened Options
  import opened JsonValues
  import opened Instants
  import opened Ontology
  import opened Models
  import opened Policy
  import opened Tokens
  import opened Trust
  import opened TokenStates
  import opened Capabilities
  import opened Planes
  import opened Machine

  // ---------- accepting an event ----------

  lemma AcceptKeepsNonces(p: Plane, e: Event)
    requires NoncesMatch(p) && NonceOf(e) !in p.nonces
    ensures NoncesMatch(Accept(p, e))
  {
    var p' := Accept(p, e);
    assert p'.accepted[|p.accepted|] == e;
    forall n | n in p'.nonces ensures exists i :: 0 <= i < |p'.accepted| && NonceOf(p'.accepted[i]) == n {
      if n in p.nonces {
        var i :| 0 <= i < |p.accepted| && NonceOf(p.accepted[i]) == n;
        assert p'.accepted[i] == p.accepted[i];
      }
    }
    forall i, j | 0 <= i < j < |p'.accepted| ensures NonceOf(p'.accepted[i]) != NonceOf(p'.accepted[j]) {
      assert p'.accepted[i] == p.accepted[i];
      if j < |p.accepted| { assert p'.accepted[j] == p.accepted[j]; }
    }
  }

  lemma AcceptKeepsValid(cfg: Config, w: World, e: Event)
    requires Valid(cfg, w) && NonceOf(e) !in w.plane.nonces
    ensures Valid(cfg, w.(plane := Accept(w.plane, e)))
  {
    var p, p' := w.plane, Accept(w.plane, e);
    AcceptKeepsNonces(p, e);
    forall i | 0 <= i < |p'.grants| ensures GrantMatches(cfg, p', p'.grants[i]) {
      assert GrantMatches(cfg, p, p.grants[i]);
    }
    forall id | id in Recorded(p'.caps) ensures MintedId(p', id) {
      assert MintedId(p, id);
    }
    forall i | 0 <= i < |w.executed| ensures ExecutionMatches(p', w.clock, w.executed[i]) {
      assert ExecutionMatches(p, w.clock, w.executed[i]);
    }
  }

  // ---------- minting ----------

  ghost predicate Mintable(cfg: Config, p: Plane, g: Grant) {
    && GrantMatches(cfg, p, g)
    && FreshToken(p, g.token.tokenId)
    && (forall i :: 0 <= i < |p.grants| ==> p.grants[i].accepted < g.accepted)
  }

  lemma MintKeepsGrants(cfg: Config, p: Plane, g: Grant)
    requires GrantsMatch(cfg, p) && Mintable(cfg, p, g)
    ensures GrantsMatch(cfg, Minted(p, g))
  {
    var p' := Minted(p, g);
    forall i | 0 <= i < |p'.grants| ensures GrantMatches(cfg, p', p'.grants[i]) {
      if i < |p.grants| { assert GrantMatches(cfg, p, p.grants[i]); }
    }
    forall i, j | 0 <= i < j < |p'.grants|
      ensures p'.grants[i].accepted < p'.grants[j].accepted
      ensures p'.grants[i].token.tokenId != p'.grants[j].token.tokenId
    {
      assert p'.grants[i] == p.grants[i];
    }
  }

  lemma MintKeepsStore(cfg: Config, p: Plane, clock: Instant, g: Grant)
    requires GrantsMatch(cfg, p) && StoreMatches(p, clock) && Mintable(cfg, p, g)
    ensures StoreMatches(Minted(p, g), clock)
  {
    var p' := Minted(p, g);
    assert p'.grants[|p.grants|] == g;
    forall id | id in Recorded(p'.caps) ensures MintedId(p', id) {
      if id in Recorded(p.caps) {
        var i :| 0 <= i < |p.grants| && p.grants[i].token.tokenId == id;
        assert p'.grants[i] == p.grants[i];
      }
    }
    assert g.token.tokenId !in Recorded(p.caps);
    forall i | 0 <= i < |p'.grants|
      ensures var t := p'.grants[i].token;
              if t.tokenId in Recorded(p'.caps) then Info(p'.caps, t.tokenId) == Issued(TokenScope(t), t.expiresAt)
              else Expired(t, clock)
    {
      if i < |p.grants| { assert p'.grants[i] == p.grants[i]; }
    }
  }

  lemma MintKeepsExecuted(cfg: Config, w: World, g: Grant)
    requires Valid(cfg, w) && Mintable(cfg, w.plane, g)
    ensures ExecutedMatch(w.(plane := Minted(w.plane, g)))
  {
    var p, p' := w.plane, Minted(w.plane, g);
    forall i | 0 <= i < |w.executed| ensures ExecutionMatches(p', w.clock, w.executed[i]) {
      assert ExecutionMatches(p, w.clock, w.executed[i]);
      var j :| 0 <= j < |p.grants| && SameGrant(p.grants[j].token, w.executed[i].token)
               && Dead(p.caps, w.clock, p.grants[j].token);
      assert p'.grants[j] == p.grants[j];
      RecordKeepsDead(p.caps, w.clock, g.token, p.grants[j].token);
    }
  }

  lemma RecordKeepsDead(caps: TokenStore, clock: Instant, t: Token, other: Token)
    requires Dead(caps, clock, other)
    ensures Dead(Record(caps, t), clock, other)
  {}

  lemma NoncesIgnoreGrants(p: Plane, g: Grant)
    requires NoncesMatch(p)
    ensures NoncesMatch(Minted(p, g))
  {}

  lemma MintKeepsValid(cfg: Config, w: World, g: Grant)
    requires Valid(cfg, w) && Mintable(cfg, w.plane, g)
    ensures Valid(cfg, w.(plane := Minted(w.plane, g)))
  {
    NoncesIgnoreGrants(w.plane, g);
    MintKeepsGrants(cfg, w.plane, g);
    MintKeepsStore(cfg, w.plane, w.clock, g);
    MintKeepsExecuted(cfg, w, g);
  }

  // ---------- proposals ----------

  lemma EnrolledKeepsValid(cfg: Config, w: World, e: Event)
    requires Valid(cfg, w)
    ensures Valid(cfg, w.(plane := Enrolled(cfg, w.plane, e)))
  {
    TickAges(w.plane, w.clock, w.clock);
    AgingKeepsValid(cfg, w, Enrolled(cfg, w.plane, e), w.clock);
  }

  lemma MintedTokenClaims(cfg: Config, e: Event, rule: Option<Rule>, s: AutonomyStatus, around: Around)
    requires TtlFits(cfg, around.now)
    ensures
      var t := MintedToken(cfg, e, rule, s, around);
      && TokenScope(t) == ScopeOf(e) && t.eventId == Some(e.eventId) && t.singleUse && t.tokenId == around.tokenId
      && (Sound(cfg.issuer) ==> SignatureValid(cfg.issuer, t))
  {
    MintageSays(cfg.issuer, ScopeOf(e), RuleConditions(rule), around.now, Ttl(cfg, s), true, Some(e.eventId),
                around.tokenId, around.tokenNonce);
  }

  lemma NewGrantMatches(cfg: Config, p: Plane, e: Event, s: AutonomyStatus, around: Around)
    requires Sound(cfg.issuer)
    requires e.agentId in p.agents && p.accepted != [] && p.accepted[|p.accepted| - 1] == e && TtlFits(cfg, around.now)
    ensures GrantMatches(cfg, p, NewGrant(cfg, p, e, s, around))
    ensures NewGrant(cfg, p, e, s, around).token.tokenId == around.tokenId
  {
    MintedTokenClaims(cfg, e, PickedRule(around.pick), s, around);
  }

  /** The token a proposal mints fits the event just accepted. */
  lemma ConcludeKeepsValid(cfg: Config, w: World, e: Event, around: Around)
    requires Sound(cfg.issuer) && Valid(cfg, w) && e.agentId in w.plane.agents && TtlFits(cfg, around.now)
    requires w.plane.accepted != [] && w.plane.accepted[|w.plane.accepted| - 1] == e
    requires forall i :: 0 <= i < |w.plane.grants| ==> w.plane.grants[i].accepted < |w.plane.accepted| - 1
    requires FreshToken(w.plane, around.tokenId)
    ensures Valid(cfg, w.(plane := Conclude(cfg, w.plane, e, around).0))
  {
    var d := DecisionOn(cfg, w.plane, e, around);
    if d.Some? && Grants(d.value.status) {
      NewGrantMatches(cfg, w.plane, e, d.value.status, around);
      MintKeepsValid(cfg, w, NewGrant(cfg, w.plane, e, d.value.status, around));
    }
  }

  lemma ProposeKeepsValid(cfg: Config, w: World, e: Event, around: Around)
    requires Sound(cfg.issuer) && Valid(cfg, w) && TtlFits(cfg, around.now) && FreshToken(w.plane, around.tokenId)
    ensures Valid(cfg, w.(plane := Propose(cfg, w.plane, e, around).0))
  {
    var p1 := Enrolled(cfg, w.plane, e);
    EnrolledKeepsValid(cfg, w, e);
    if Refuses(cfg, p1, e).None? {
      var w1 := w.(plane := p1);
      var w2 := w1.(plane := Accept(p1, e));
      AcceptKeepsValid(cfg, w1, e);
      forall i | 0 <= i < |w2.plane.grants| ensures w2.plane.grants[i].accepted < |w2.plane.accepted| - 1 {
        assert GrantMatches(cfg, p1, p1.grants[i]);
      }
      FreshAfterAccept(cfg, w.plane, e, around.tokenId);
      ConcludeKeepsValid(cfg, w2, e, around);
    }
  }

  lemma FreshAfterAccept(cfg: Config, p: Plane, e: Event, id: string)
    requires FreshToken(p, id)
    ensures FreshToken(Accept(Enrolled(cfg, p, e), e), id)
  {
    assert Accept(Enrolled(cfg, p, e), e).grants == p.grants;
  }

  // ---------- executions ----------

  /** A token that verifies grants what some minted token grants. */
  lemma AcceptedTokenWasMinted(cfg: Config, p: Plane, t: Token) returns (i: nat)
    requires Sound(cfg.issuer) && Unforged(cfg, p, t) && SignatureValid(cfg.issuer, t)
    ensures i < |p.grants| && SameGrant(p.grants[i].token, t)
  {
    i :| 0 <= i < |p.grants| && cfg.issuer.payload(p.grants[i].token) == cfg.issuer.payload(t);
  }

  /** A dead token is refused, under whatever signature and context it is presented. */
  lemma DeadIsRefused(cfg: Config, p: Plane, clock: Instant, t: Token, minted: Token, action: Scope, context: Dict)
    requires SameGrant(minted, t) && minted.singleUse && Dead(p.caps, clock, minted)
    ensures VerifyForAction(cfg.issuer, p.caps, t, action, context, clock).0 != Accepted
  {
    AcceptedMeansInScope(cfg.issuer, p.caps, t, action, context, clock);
  }

  /** An accepted presentation is of a grant that is still good, in the grant's scope. */
  lemma AcceptedGrant(cfg: Config, w: World, t: Token, action: Scope, context: Dict) returns (i: nat)
    requires Sound(cfg.issuer) && Valid(cfg, w) && Unforged(cfg, w.plane, t)
    requires VerifyForAction(cfg.issuer, w.plane.caps, t, action, context, w.clock).0 == Accepted
    ensures i < |w.plane.grants| && SameGrant(w.plane.grants[i].token, t)
    ensures CanConsume(w.plane.caps, t.tokenId) && action == TokenScope(t)
    ensures !Dead(w.plane.caps, w.clock, w.plane.grants[i].token)
  {
    AcceptedMeansInScope(cfg.issuer, w.plane.caps, t, action, context, w.clock);
    i := AcceptedTokenWasMinted(cfg, w.plane, t);
    assert GrantMatches(cfg, w.plane, w.plane.grants[i]);
  }

  lemma ExecuteKeepsValid(cfg: Config, w: World, t: Token, action: Scope, context: Dict)
    requires Sound(cfg.issuer) && Valid(cfg, w) && Unforged(cfg, w.plane, t)
    requires VerifyForAction(cfg.issuer, w.plane.caps, t, action, context, w.clock).0 == Accepted
    ensures Valid(cfg, World(w.plane.(caps := TryConsume(w.plane.caps, t.tokenId)), w.clock,
                             w.executed + [Execution(t, action)]))
  {
    var i := AcceptedGrant(cfg, w, t, action, context);
    SpendAndAppend(cfg, w, t, action, i);
  }

  lemma SpendAndAppend(cfg: Config, w: World, t: Token, action: Scope, i: nat)
    requires Valid(cfg, w) && i < |w.plane.grants| && SameGrant(w.plane.grants[i].token, t)
    requires CanConsume(w.plane.caps, t.tokenId) && action == TokenScope(t)
    requires !Dead(w.plane.caps, w.clock, w.plane.grants[i].token)
    ensures Valid(cfg, World(w.plane.(caps := TryConsume(w.plane.caps, t.tokenId)), w.clock,
                             w.executed + [Execution(t, action)]))
  {
    ExecutionSpends(cfg, w, t, i);
    AppendExecution(cfg, w, w.(plane := w.plane.(caps := TryConsume(w.plane.caps, t.tokenId))), Execution(t, action), i);
  }

  /** An accepted verification of an unforged token consumes it; any other leaves the store alone. */
  lemma VerificationConsumes(cfg: Config, w: World, t: Token, action: Scope, context: Dict)
    requires Sound(cfg.issuer) && Valid(cfg, w) && Unforged(cfg, w.plane, t)
    ensures
      var v := VerifyForAction(cfg.issuer, w.plane.caps, t, action, context, w.clock);
      v.1 == if v.0 == Accepted then TryConsume(w.plane.caps, t.tokenId) else w.plane.caps
  {
    if SignatureValid(cfg.issuer, t) {
      var i := AcceptedTokenWasMinted(cfg, w.plane, t);
      assert GrantMatches(cfg, w.plane, w.plane.grants[i]);
    }
  }

  /** Consuming a live token keeps the invariant and makes the token dead. */
  lemma ExecutionSpends(cfg: Config, w: World, t: Token, i: nat)
    requires Valid(cfg, w) && CanConsume(w.plane.caps, t.tokenId)
    requires i < |w.plane.grants| && SameGrant(w.plane.grants[i].token, t)
    ensures
      var w' := w.(plane := w.plane.(caps := TryConsume(w.plane.caps, t.tokenId)));
      Valid(cfg, w') && Dead(w'.plane.caps, w'.clock, w'.plane.grants[i].token)
  {
    var p := w.plane;
    ConsumeAges(p, w.clock, t.tokenId);
    AgingKeepsValid(cfg, w, p.(caps := TryConsume(p.caps, t.tokenId)), w.clock);
    ConsumeOnce(p.caps, t.tokenId);
  }

  lemma AppendExecution(cfg: Config, w: World, w1: World, x: Execution, i: nat)
    requires Valid(cfg, w) && Valid(cfg, w1)
    requires w1.executed == w.executed && w1.plane.grants == w.plane.grants && w1.clock == w.clock
    requires i < |w.plane.grants| && SameGrant(w.plane.grants[i].token, x.token)
    requires x.action == TokenScope(x.token)
    requires !Dead(w.plane.caps, w.clock, w.plane.grants[i].token)
    requires Dead(w1.plane.caps, w1.clock, w1.plane.grants[i].token)
    ensures Valid(cfg, w1.(executed := w1.executed + [x]))
  {
    assert ExecutionMatches(w1.plane, w1.clock, x);
    forall j | 0 <= j < |w.executed| ensures w.executed[j].token.tokenId != x.token.tokenId {
      UsedTokensDiffer(cfg, w, j, i);
    }
  }

  /** A token that is still good is none of those already used. */
  lemma UsedTokensDiffer(cfg: Config, w: World, j: nat, i: nat)
    requires GrantsMatch(cfg, w.plane) && ExecutedMatch(w) && j < |w.executed| && i < |w.plane.grants|
    requires !Dead(w.plane.caps, w.clock, w.plane.grants[i].token)
    ensures w.executed[j].token.tokenId != w.plane.grants[i].token.tokenId
  {
    assert ExecutionMatches(w.plane, w.clock, w.executed[j]);
    var m :| 0 <= m < |w.plane.grants| && SameGrant(w.plane.grants[m].token, w.executed[j].token)
             && Dead(w.plane.caps, w.clock, w.plane.grants[m].token);
    assert m != i;
  }

  // ---------- runs ----------

  lemma ExecuteStepKeepsValid(cfg: Config, w: World, t: Token, action: Scope, context: Dict)
    requires Sound(cfg.issuer) && Valid(cfg, w) && Unforged(cfg, w.plane, t)
    ensures Valid(cfg, Perform(cfg, w, DoExecute(t, action, context)))
  {
    VerificationConsumes(cfg, w, t, action, context);
    if VerifyForAction(cfg.issuer, w.plane.caps, t, action, context, w.clock).0 == Accepted {
      ExecuteKeepsValid(cfg, w, t, action, context);
    } else {
      assert Perform(cfg, w, DoExecute(t, action, context)) == w;
    }
  }

  /** Revocations, clock ticks and purges. */
  lemma AgingStepKeepsValid(cfg: Config, w: World, step: Step)
    requires Valid(cfg, w) && LegalStep(cfg, w, step)
    requires step.DoRevokeToken? || step.DoTick? || step.DoPurge? || step.DoIncident? || step.DoRevokeRule?
    ensures Valid(cfg, Perform(cfg, w, step))
  {
    var p := w.plane;
    match step
    case DoRevokeRule(id, reason) =>
      if id in p.rules {
        RevokeScopeAges(p, w.clock, RuleScope(p.rules[id]));
        AgingKeepsValid(cfg, w, RevokeRule(p, id, reason), w.clock);
      }
    case DoIncident(k, reason) =>
      RevokeScopeAges(p, w.clock, k);
      AgingKeepsValid(cfg, w, Incident(p, k, reason), w.clock);
    case DoRevokeToken(id) =>
      RevokeAges(p, w.clock, id);
      AgingKeepsValid(cfg, w, p.(caps := Revoke(p.caps, id)), w.clock);
    case DoTick(now) =>
      TickAges(p, w.clock, now);
      AgingKeepsValid(cfg, w, p, now);
    case DoPurge(nowIso) =>
      PurgeAges(p, w.clock, nowIso);
      AgingKeepsValid(cfg, w, p.(caps := Purge(p.caps, nowIso)), w.clock);
  }

  /** Every legal step keeps the invariant. */
  lemma StepKeepsValid(cfg: Config, w: World, step: Step)
    requires Sound(cfg.issuer) && Valid(cfg, w) && LegalStep(cfg, w, step)
    ensures Valid(cfg, Perform(cfg, w, step))
  {
    var p := w.plane;
    if step.DoPropose? {
      ProposeKeepsValid(cfg, w, step.event, step.around);
    } else if step.DoExecute? {
      ExecuteStepKeepsValid(cfg, w, step.token, step.action, step.context);
    } else if step.DoRevokeToken? || step.DoTick? || step.DoPurge? || step.DoIncident? || step.DoRevokeRule? {
      AgingStepKeepsValid(cfg, w, step);
    } else {
      TickAges(p, w.clock, w.clock);
      AgingKeepsValid(cfg, w, Perform(cfg, w, step).plane, w.clock);
    }
  }

  lemma {:induction false} RunKeepsValid(cfg: Config, w: World, steps: seq<Step>)
    requires Sound(cfg.issuer) && Valid(cfg, w) && LegalRun(cfg, w, steps)
    ensures Valid(cfg, RunOf(cfg, w, steps))
    decreases |steps|
  {
    if steps != [] {
      StepKeepsValid(cfg, w, steps[0]);
      RunKeepsValid(cfg, Perform(cfg, w, steps[0]), steps[1..]);
    }
  }

  lemma InitialIsValid(cfg: Config, w: World)
    requires Initial(w)
    ensures Valid(cfg, w)
  {}

  // ---------- the theorem ----------

  /** `ids` names pairwise different things, all among `among`. */
  lemma {:induction false} DistinctFit<T>(ids: seq<T>, among: set<T>)
    requires Distinct(ids) && forall i :: 0 <= i < |ids| ==> ids[i] in among
    ensures |ids| <= |among|
  {
    if ids != [] {
      var last := ids[|ids| - 1];
      var rest := ids[..|ids| - 1];
      forall i | 0 <= i < |rest| ensures rest[i] in among - {last} {
        assert rest[i] == ids[i];
      }
      DistinctFit(rest, among - {last});
    }
  }

  /** The execution ran under the token of a grant, on the scope of its event. */
  predicate RunsUnder(g: Grant, x: Execution) {
    SameGrant(g.token, x.token) && x.action == ScopeOf(g.event)
  }

  /** Each execution ran under a minted token of its scope. */
  ghost predicate ExecutionsTraceable(w: World) {
    forall i :: 0 <= i < |w.executed| ==> HasGrant(w.plane, w.executed[i])
  }

  ghost predicate HasGrant(p: Plane, x: Execution) {
    exists j :: 0 <= j < |p.grants| && RunsUnder(p.grants[j], x)
  }

  /** No token ran twice. */
  ghost predicate TokensRunOnce(w: World) {
    forall i, j :: 0 <= i < j < |w.executed| ==> w.executed[i].token.tokenId != w.executed[j].token.tokenId
  }

  /** Each token was minted for one accepted event, in its scope, and no event has two. */
  ghost predicate TokensTraceable(p: Plane) {
    && (forall i :: 0 <= i < |p.grants| ==>
          && p.grants[i].accepted < |p.accepted| && p.accepted[p.grants[i].accepted] == p.grants[i].event
          && TokenScope(p.grants[i].token) == ScopeOf(p.grants[i].event)
          && p.grants[i].token.eventId == Some(p.grants[i].event.eventId))
    && (forall i, j :: 0 <= i < j < |p.grants| ==> p.grants[i].accepted != p.grants[j].accepted)
  }

  /** The provenance of a valid world; accepted events and claimed nonces are one to one by
      `NoncesMatch`. */
  lemma ProvenanceOf(cfg: Config, w: World)
    requires Valid(cfg, w)
    ensures ExecutionsTraceable(w) && TokensRunOnce(w) && TokensTraceable(w.plane) && NoncesMatch(w.plane)
  {
    forall i | 0 <= i < |w.executed| ensures HasGrant(w.plane, w.executed[i]) {
      assert ExecutionMatches(w.plane, w.clock, w.executed[i]);
      var j :| 0 <= j < |w.plane.grants| && SameGrant(w.plane.grants[j].token, w.executed[i].token);
      assert GrantMatches(cfg, w.plane, w.plane.grants[j]);
      assert RunsUnder(w.plane.grants[j], w.executed[i]);
    }
    forall j | 0 <= j < |w.plane.grants| ensures GrantMatches(cfg, w.plane, w.plane.grants[j]) {}
  }

  /** Never more executions than tokens, tokens than accepted events, or accepted events than
      nonces; the last two are equal. */
  lemma ProvenanceCounts(cfg: Config, w: World)
    requires Valid(cfg, w)
    ensures |w.executed| <= |w.plane.grants| <= |w.plane.accepted| == |w.plane.nonces|
  {
    ExecutionsFitTokens(w);
    GrantsFitEvents(cfg, w.plane);
    EventsFitNonces(w.plane);
  }

  lemma {:induction false} SetFitsSeq<T>(xs: set<T>, s: seq<T>)
    requires forall x :: x in xs ==> x in s
    ensures |xs| <= |s|
  {
    if s == [] {
      assert xs == {};
    } else {
      var rest := s[..|s| - 1];
      forall x | x in xs - {s[|s| - 1]} ensures x in rest {}
      SetFitsSeq(xs - {s[|s| - 1]}, rest);
    }
  }

  lemma {:induction false} DistinctFitSeq<T>(ids: seq<T>, among: seq<T>)
    requires Distinct(ids) && forall i :: 0 <= i < |ids| ==> ids[i] in among
    ensures |ids| <= |among|
  {
    var all := set x | x in among;
    DistinctFit(ids, all);
    SetFitsSeq(all, among);
  }

  lemma ExecutionsFitTokens(w: World)
    requires ExecutedMatch(w)
    ensures |w.executed| <= |w.plane.grants|
  {
    var used := seq(|w.executed|, i requires 0 <= i < |w.executed| => w.executed[i].token.tokenId);
    var ids := seq(|w.plane.grants|, i requires 0 <= i < |w.plane.grants| => w.plane.grants[i].token.tokenId);
    forall i | 0 <= i < |used| ensures used[i] in ids {
      assert ExecutionMatches(w.plane, w.clock, w.executed[i]);
      var j :| 0 <= j < |w.plane.grants| && SameGrant(w.plane.grants[j].token, w.executed[i].token);
      assert ids[j] == used[i];
    }
    DistinctFitSeq(used, ids);
  }

  lemma GrantsFitEvents(cfg: Config, p: Plane)
    requires GrantsMatch(cfg, p)
    ensures |p.grants| <= |p.accepted|
  {
    var positions := seq(|p.grants|, i requires 0 <= i < |p.grants| => p.grants[i].accepted);
    var all := seq(|p.accepted|, i => i);
    forall i | 0 <= i < |positions| ensures positions[i] in all {
      assert GrantMatches(cfg, p, p.grants[i]);
      assert all[positions[i]] == positions[i];
    }
    DistinctFitSeq(positions, all);
  }

  lemma EventsFitNonces(p: Plane)
    requires NoncesMatch(p)
    ensures |p.accepted| == |p.nonces|
  {
    var claimed := seq(|p.accepted|, i requires 0 <= i < |p.accepted| => NonceOf(p.accepted[i]));
    DistinctFit(claimed, p.nonces);
    forall n | n in p.nonces ensures n in claimed {
      var i :| 0 <= i < |p.accepted| && NonceOf(p.accepted[i]) == n;
      assert claimed[i] == n;
    }
    SetFitsSeq(p.nonces, claimed);
  }

  /** Provenance over every run. */
  lemma ProvenanceOfRuns(cfg: Config, w: World, steps: seq<Step>)
    requires Sound(cfg.issuer) && Initial(w) && LegalRun(cfg, w, steps)
    ensures
      var w' := RunOf(cfg, w, steps);
      && ExecutionsTraceable(w') && TokensRunOnce(w') && TokensTraceable(w'.plane) && NoncesMatch(w'.plane)
      && |w'.executed| <= |w'.plane.grants| <= |w'.plane.accepted| == |w'.plane.nonces|
  {
    InitialIsValid(cfg, w);
    RunKeepsValid(cfg, w, steps);
    ProvenanceOf(cfg, RunOf(cfg, w, steps));
    ProvenanceCounts(cfg, RunOf(cfg, w, steps));
  }
}
