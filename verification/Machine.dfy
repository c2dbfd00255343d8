/** Runs of the enforced-autonomy system: control plane, capability state, enforcement point and
    clock, in any order and for any number of steps. */
module Machine {
  import opened Options
  import opened JsonValues
  import opened Instants
  import opened Models
  import opened Tokens
  import opened Trust
  import opened Recommendations
  import opened TokenStates
  import opened Capabilities
  import opened Planes

  /** An action the enforcement point let through. */
  datatype Execution = Execution(token: Token, action: Scope)

  datatype World = World(plane: Plane, clock: Instant, executed: seq<Execution>)

  datatype Step =
    | DoRegister(agent: Agent)
    | DoPropose(event: Event, around: Around)
    | DoSubmit(eventId: string, approver: string, outcome: Outcome, engine: Engine)
    | DoRecommend(scope: Scope, engine: Engine)
    | DoApproveRule(rule: Rule, approver: string)
    | DoRevokeRule(ruleId: string, reason: string)
    | DoIncident(scope: Scope, reason: string)
    | DoExecute(token: Token, action: Scope, context: Dict)
    | DoRevokeToken(tokenId: string)
    | DoTick(now: Instant)
    | DoPurge(nowIso: string)

  // ---------- what the surroundings may choose ----------

  ghost predicate MintedId(p: Plane, id: string) {
    exists i :: 0 <= i < |p.grants| && p.grants[i].token.tokenId == id
  }

  /** A uuid nobody has seen. */
  ghost predicate FreshToken(p: Plane, id: string) {
    !MintedId(p, id) && !IsRevoked(p.caps, id) && !IsConsumed(p.caps, id)
  }

  /** The issuer's key signs tokens only by minting them, and signatures cannot be forged: a token
      whose signature verifies carries the payload of a minted one. */
  ghost predicate Unforged(cfg: Config, p: Plane, t: Token) {
    SignatureValid(cfg.issuer, t) ==>
      exists i :: 0 <= i < |p.grants| && cfg.issuer.payload(p.grants[i].token) == cfg.issuer.payload(t)
  }

  /** The clock never runs backwards, and a purge is not run for a time ahead of it. */
  ghost predicate LegalStep(cfg: Config, w: World, step: Step) {
    match step
    case DoPropose(e, around) =>
      && around.now == w.clock && TtlFits(cfg, w.clock)
      && LegalPick(w.plane.rules, e, around.pick)
      && FreshToken(w.plane, around.tokenId)
    case DoExecute(t, _, _) => Unforged(cfg, w.plane, t)
    case DoTick(now) => w.clock <= now
    case DoPurge(nowIso) => !StrLess(Iso(w.clock), nowIso)
    case _ => true
  }

  function Perform(cfg: Config, w: World, step: Step): World
    requires step.DoPropose? ==> TtlFits(cfg, step.around.now)
  {
    var p := w.plane;
    match step
    case DoRegister(a) => w.(plane := Register(cfg, p, a))
    case DoPropose(e, around) => w.(plane := Propose(cfg, p, e, around).0)
    case DoSubmit(id, approver, o, engine) => w.(plane := Submit(p, id, approver, o, engine).0)
    case DoRecommend(k, engine) => w.(plane := RecommendFor(p, k, engine).0)
    case DoApproveRule(r, approver) => w.(plane := ApproveRule(p, r, approver).0)
    case DoRevokeRule(id, reason) => w.(plane := RevokeRule(p, id, reason))
    case DoIncident(k, reason) => w.(plane := Incident(p, k, reason))
    case DoExecute(t, action, context) =>
      var v := VerifyForAction(cfg.issuer, p.caps, t, action, context, w.clock);
      World(p.(caps := v.1), w.clock, if v.0 == Accepted then w.executed + [Execution(t, action)] else w.executed)
    case DoRevokeToken(id) => w.(plane := p.(caps := Revoke(p.caps, id)))
    case DoTick(now) => w.(clock := now)
    case DoPurge(nowIso) => w.(plane := p.(caps := Purge(p.caps, nowIso)))
  }

  ghost predicate LegalRun(cfg: Config, w: World, steps: seq<Step>)
    decreases |steps|
  {
    steps == [] || (LegalStep(cfg, w, steps[0]) && LegalRun(cfg, Perform(cfg, w, steps[0]), steps[1..]))
  }

  ghost function RunOf(cfg: Config, w: World, steps: seq<Step>): World
    requires LegalRun(cfg, w, steps)
    decreases |steps|
  {
    if steps == [] then w else RunOf(cfg, Perform(cfg, w, steps[0]), steps[1..])
  }

  ghost predicate Initial(w: World) {
    && (w.plane.caps == Memory(map[], {}, {}) || w.plane.caps == Sql(map[]))
    && w.plane == Plane(map[], map[], map[], {}, map[], w.plane.caps, [], [])
    && w.executed == []
  }

  // ---------- the invariant ----------

  predicate Expired(t: Token, clock: Instant) {
    ExpiryCheck(t, clock) != Accepted
  }

  /** No presentation of the token will be accepted again. */
  predicate Dead(caps: TokenStore, clock: Instant, t: Token) {
    IsConsumed(caps, t.tokenId) || IsRevoked(caps, t.tokenId) || Expired(t, clock)
  }

  function NonceOf(e: Event): (string, string) {
    (e.agentId, e.nonce)
  }

  /** The claimed nonces are those of the accepted events, each claimed once. */
  ghost predicate NoncesMatch(p: Plane) {
    && (forall i :: 0 <= i < |p.accepted| ==> NonceOf(p.accepted[i]) in p.nonces)
    && (forall n :: n in p.nonces ==> exists i :: 0 <= i < |p.accepted| && NonceOf(p.accepted[i]) == n)
    && (forall i, j :: 0 <= i < j < |p.accepted| ==> NonceOf(p.accepted[i]) != NonceOf(p.accepted[j]))
  }

  /** A token says what its event asked for and stands at its event's position. */
  ghost predicate GrantMatches(cfg: Config, p: Plane, g: Grant) {
    && g.accepted < |p.accepted| && p.accepted[g.accepted] == g.event
    && TokenScope(g.token) == ScopeOf(g.event)
    && g.token.eventId == Some(g.event.eventId)
    && g.token.singleUse
    && SignatureValid(cfg.issuer, g.token)
  }

  ghost predicate GrantsMatch(cfg: Config, p: Plane) {
    && (forall i :: 0 <= i < |p.grants| ==> GrantMatches(cfg, p, p.grants[i]))
    && (forall i, j :: 0 <= i < j < |p.grants| ==> p.grants[i].accepted < p.grants[j].accepted)
    && (forall i, j :: 0 <= i < j < |p.grants| ==> p.grants[i].token.tokenId != p.grants[j].token.tokenId)
  }

  /** The store knows every token that has not expired, and only minted ones. */
  ghost predicate StoreMatches(p: Plane, clock: Instant) {
    && (forall id :: id in Recorded(p.caps) ==> MintedId(p, id))
    && (forall i :: 0 <= i < |p.grants| ==>
          var t := p.grants[i].token;
          if t.tokenId in Recorded(p.caps) then Info(p.caps, t.tokenId) == Issued(TokenScope(t), t.expiresAt)
          else Expired(t, clock))
  }

  ghost predicate ExecutionMatches(p: Plane, clock: Instant, x: Execution) {
    && x.action == TokenScope(x.token)
    && exists i :: 0 <= i < |p.grants| && SameGrant(p.grants[i].token, x.token) && Dead(p.caps, clock, p.grants[i].token)
  }

  ghost predicate ExecutedMatch(w: World) {
    && (forall i :: 0 <= i < |w.executed| ==> ExecutionMatches(w.plane, w.clock, w.executed[i]))
    && (forall i, j :: 0 <= i < j < |w.executed| ==> w.executed[i].token.tokenId != w.executed[j].token.tokenId)
  }

  ghost predicate Valid(cfg: Config, w: World) {
    NoncesMatch(w.plane) && GrantsMatch(cfg, w.plane) && StoreMatches(w.plane, w.clock) && ExecutedMatch(w)
  }

  // ---------- how the capability state ages ----------

  /** Between two moments tokens are at most forgotten once expired, and dead ones stay dead. */
  ghost predicate Ages(p: Plane, clock: Instant, caps': TokenStore, clock': Instant) {
    && clock <= clock'
    && Recorded(caps') <= Recorded(p.caps)
    && (forall id :: id in Recorded(caps') ==> Info(caps', id) == Info(p.caps, id))
    && (forall i :: 0 <= i < |p.grants| ==>
          var t := p.grants[i].token;
          && (t.tokenId in Recorded(p.caps) && t.tokenId !in Recorded(caps') ==> Expired(t, clock'))
          && (Dead(p.caps, clock, t) ==> Dead(caps', clock', t)))
  }

  lemma ExpiredStays(t: Token, clock: Instant, clock': Instant)
    requires Expired(t, clock) && clock <= clock'
    ensures Expired(t, clock')
  {}

  lemma RevokeScopeAges(p: Plane, clock: Instant, k: Scope)
    ensures Ages(p, clock, RevokeScope(p.caps, k), clock)
  {
    RevokeScopeEffect(p.caps, k);
  }

  lemma RevokeAges(p: Plane, clock: Instant, id: string)
    ensures Ages(p, clock, Revoke(p.caps, id), clock)
  {}

  lemma ConsumeAges(p: Plane, clock: Instant, id: string)
    ensures Ages(p, clock, TryConsume(p.caps, id), clock)
  {}

  lemma TickAges(p: Plane, clock: Instant, clock': Instant)
    requires clock <= clock'
    ensures Ages(p, clock, p.caps, clock')
  {
    forall i | 0 <= i < |p.grants| && Expired(p.grants[i].token, clock)
      ensures Expired(p.grants[i].token, clock')
    {
      ExpiredStays(p.grants[i].token, clock, clock');
    }
  }

  /** A printed expiry before a purge time that is not ahead of the clock has passed. */
  lemma PurgedMeansExpired(t: Token, clock: Instant, nowIso: string)
    requires !StrLess(Iso(clock), nowIso) && StrLess(t.expiresAt, nowIso)
    ensures Expired(t, clock)
  {
    var at := FromIso(t.expiresAt);
    if at.Some? {
      StrLessTotal(Iso(clock), nowIso);
      if nowIso != Iso(clock) { StrLessTransitive(t.expiresAt, nowIso, Iso(clock)); }
      IsoOrder(at.value, clock);
    }
  }

  /** A purge drops only tokens that verification already rejects as expired. */
  lemma PurgeAges(p: Plane, clock: Instant, nowIso: string)
    requires StoreMatches(p, clock) && !StrLess(Iso(clock), nowIso)
    ensures Ages(p, clock, Purge(p.caps, nowIso), clock)
  {
    var gone := ExpiredIds(p.caps, nowIso);
    forall i | 0 <= i < |p.grants| && p.grants[i].token.tokenId in gone
      ensures Expired(p.grants[i].token, clock)
    {
      PurgedMeansExpired(p.grants[i].token, clock, nowIso);
    }
  }

  /** Steps that neither accept events nor mint keep the invariant when the store ages. */
  lemma AgingKeepsValid(cfg: Config, w: World, p': Plane, clock': Instant)
    requires Valid(cfg, w) && Ages(w.plane, w.clock, p'.caps, clock')
    requires p'.grants == w.plane.grants && p'.accepted == w.plane.accepted && p'.nonces == w.plane.nonces
    ensures Valid(cfg, World(p', clock', w.executed))
  {
    forall id | id in Recorded(p'.caps) ensures MintedId(p', id) {
      assert MintedId(w.plane, id);
    }
    forall i | 0 <= i < |p'.grants|
      ensures var t := p'.grants[i].token;
              if t.tokenId in Recorded(p'.caps) then Info(p'.caps, t.tokenId) == Issued(TokenScope(t), t.expiresAt)
              else Expired(t, clock')
    {
      var t := p'.grants[i].token;
      if t.tokenId !in Recorded(w.plane.caps) { ExpiredStays(t, w.clock, clock'); }
    }
    forall i | 0 <= i < |w.executed| ensures ExecutionMatches(p', clock', w.executed[i]) {
      assert ExecutionMatches(w.plane, w.clock, w.executed[i]);
    }
  }
}
