/** Minting and verification of capability tokens as functions (earned_autonomy/core/capability.py). */
module Capabilities {
  import opened Options
  import opened JsonValues
  import opened CanonicalProperties
  import opened Instants
  import opened Ontology
  import opened Models
  import opened Conditions
  import opened Signing
  import opened Tokens
  import opened TokenStates

  /** The issuing key and the bytes it signs for a token. */
  datatype Issuer = Issuer(name: string, key: string, payload: Token -> Bytes)

  /** What is asked of a signing encoding: it leaves the signature out and pins down the grant. */
  ghost predicate Sound(issuer: Issuer) {
    && Distinguishes(issuer.payload)
    && forall t: Token, u: Token :: t.(signature := None) == u.(signature := None) ==> issuer.payload(t) == issuer.payload(u)
  }

  /** The canonical encoding is such an encoding. */
  lemma CanonicalIssuerIsSound(name: string, key: string)
    ensures Sound(Issuer(name, key, SigningPayload))
  {
    CanonicalPayloadDistinguishes();
    forall t: Token, u: Token | t.(signature := None) == u.(signature := None) ensures SigningPayload(t) == SigningPayload(u) {
      assert Claims(t) == Claims(u);
    }
  }

  function NewToken(issuer: Issuer, e: Scope, conditions: DictFields, now: Instant, expires: Instant,
                    singleUse: bool, eventId: Option<string>, tokenId: string, nonce: string): Token
  {
    Token(tokenId, e.agentId, e.workflowId, e.authority, ConsequenceRank(e.authority), conditions,
          Iso(now), Iso(expires), nonce, singleUse, issuer.name, eventId, None)
  }

  function Signed(issuer: Issuer, t: Token): Token {
    t.(signature := Some(Sign(issuer.key, issuer.payload(t))))
  }

  /** The token a mint produces. */
  function Mintage(issuer: Issuer, e: Scope, conditions: DictFields, now: Instant, ttlSeconds: int, singleUse: bool,
                   eventId: Option<string>, tokenId: string, nonce: string): Token
    requires 0 <= now + ttlSeconds * SECOND < MAX_INSTANT
  {
    Signed(issuer, NewToken(issuer, e, conditions, now, now + ttlSeconds * SECOND, singleUse, eventId, tokenId, nonce))
  }

  function Record(s: TokenStore, t: Token): TokenStore {
    RecordIssued(s, t.tokenId, Issued(TokenScope(t), t.expiresAt))
  }

  lemma SignedIsValid(issuer: Issuer, t: Token)
    requires Sound(issuer)
    ensures SignatureValid(issuer, Signed(issuer, t))
  {
    assert issuer.payload(Signed(issuer, t)) == issuer.payload(t);
  }

  /** What a minted token says. */
  lemma MintageSays(issuer: Issuer, e: Scope, conditions: DictFields, now: Instant, ttlSeconds: int, singleUse: bool,
                    eventId: Option<string>, tokenId: string, nonce: string)
    requires 0 <= now + ttlSeconds * SECOND < MAX_INSTANT
    ensures
      var t := Mintage(issuer, e, conditions, now, ttlSeconds, singleUse, eventId, tokenId, nonce);
      && TokenScope(t) == e && t.conditions == conditions && t.maxConsequenceRank == ConsequenceRank(e.authority)
      && t.eventId == eventId && t.singleUse == singleUse && t.tokenId == tokenId
      && t.issuedAt == Iso(now) && t.expiresAt == Iso(now + ttlSeconds * SECOND)
      && t.nonce == nonce && t.issuer == issuer.name
      && (Sound(issuer) ==> SignatureValid(issuer, t))
  {
    if Sound(issuer) {
      SignedIsValid(issuer, NewToken(issuer, e, conditions, now, now + ttlSeconds * SECOND, singleUse, eventId, tokenId, nonce));
    }
  }

  datatype Refusal =
    | InvalidSignature | TokenRevoked | MalformedExpiry | TokenExpired
    | AgentMismatch | WorkflowMismatch | ClassMismatch | RankExceeded | ConditionFailed | AlreadyConsumed

  /** `Error` is a TypeError out of a comparison. */
  datatype Verification = Accepted | Refused(reason: Refusal) | Error

  /** `consequence_rank` of the action against the token. */
  function RankCheck(t: Token, context: Dict): Verification {
    var rank := Get(context, "consequence_rank");
    if rank == Null then Accepted
    else match PyLess(Num(t.maxConsequenceRank), rank)
      case None => Error
      case Some(above) => if above then Refused(RankExceeded) else Accepted
  }

  /** The action against the token's scope, rank and conditions: reads nothing but its arguments. */
  function ActionCheck(t: Token, action: Scope, context: Dict): Verification {
    if action.agentId != t.agentId then Refused(AgentMismatch)
    else if action.workflowId != t.workflowId then Refused(WorkflowMismatch)
    else if action.authority != t.authority then Refused(ClassMismatch)
    else if RankCheck(t, context) != Accepted then RankCheck(t, context)
    else match CheckAll(t.conditions, context)
      case Yes => Accepted
      case No => Refused(ConditionFailed)
      case Raises => Error
  }

  function ExpiryCheck(t: Token, now: Instant): Verification {
    match FromIso(t.expiresAt)
    case None => Refused(MalformedExpiry)
    case Some(expires) => if now >= expires then Refused(TokenExpired) else Accepted
  }

  predicate SignatureValid(issuer: Issuer, t: Token) {
    t.signature.Some? && Verify(issuer.key, issuer.payload(t), t.signature.value)
  }

  /** Everything before consumption, in the order of the source. */
  function PreCheck(issuer: Issuer, s: TokenStore, t: Token, action: Scope, context: Dict, now: Instant): Verification {
    if !SignatureValid(issuer, t) then Refused(InvalidSignature)
    else if IsRevoked(s, t.tokenId) then Refused(TokenRevoked)
    else if ExpiryCheck(t, now) != Accepted then ExpiryCheck(t, now)
    else ActionCheck(t, action, context)
  }

  /** `verify_for_action` run in one go. */
  function VerifyForAction(issuer: Issuer, s: TokenStore, t: Token, action: Scope, context: Dict, now: Instant)
    : (Verification, TokenStore)
  {
    var pre := PreCheck(issuer, s, t, action, context, now);
    if pre != Accepted || !t.singleUse then (pre, s)
    else if CanConsume(s, t.tokenId) then (Accepted, TryConsume(s, t.tokenId))
    else (Refused(if IsRevoked(s, t.tokenId) then TokenRevoked else AlreadyConsumed), s)
  }

  /** An accepted action is inside the signed grant: same agent, workflow and class, not above the
      rank, under every condition, before the expiry, with an unrevoked token. */
  lemma AcceptedMeansInScope(issuer: Issuer, s: TokenStore, t: Token, action: Scope, context: Dict, now: Instant)
    ensures
      VerifyForAction(issuer, s, t, action, context, now).0 == Accepted <==>
      && SignatureValid(issuer, t)
      && !IsRevoked(s, t.tokenId)
      && action == TokenScope(t)
      && (FromIso(t.expiresAt).Some? && now < FromIso(t.expiresAt).value)
      && RankCheck(t, context) == Accepted
      && (forall f :: f in t.conditions ==> CheckOne(f.value, Get(context, f.key)) == Yes)
      && (t.singleUse ==> CanConsume(s, t.tokenId))
  {
    CheckAllMeansEach(t.conditions, context);
  }
}
