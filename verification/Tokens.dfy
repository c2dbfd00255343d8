/** The capability token and the bytes its issuer signs (earned_autonomy/core/models.py). */
module Tokens {
  import opened Options
  import opened JsonValues
  import opened CanonicalProperties
  import opened Ontology
  import opened Models
  import opened Signing

  datatype Token = Token(
    tokenId: string,
    agentId: string,
    workflowId: string,
    authority: AuthorityClass,
    maxConsequenceRank: nat,
    conditions: DictFields,
    issuedAt: string,
    expiresAt: string,
    nonce: string,
    singleUse: bool,
    issuer: string,
    eventId: Option<string>,
    signature: Option<Signature>)

  function TokenScope(t: Token): Scope {
    Scope(t.agentId, t.workflowId, t.authority)
  }

  function OptionalText(o: Option<string>): Json {
    match o case None => Null case Some(s) => Str(s)
  }

  /** The claims as a dict, in the order the source writes them; the signature is not among them. */
  function Claims(t: Token): seq<Field> {
    [Field("token_id", Str(t.tokenId)), Field("agent_id", Str(t.agentId)),
     Field("workflow_id", Str(t.workflowId)), Field("authority_class", Str(Name(t.authority))),
     Field("max_consequence_rank", Num(t.maxConsequenceRank)), Field("conditions", Obj(t.conditions)),
     Field("issued_at", Str(t.issuedAt)), Field("expires_at", Str(t.expiresAt)),
     Field("nonce", Str(t.nonce)), Field("single_use", Bool(t.singleUse)),
     Field("issuer", Str(t.issuer)), Field("event_id", OptionalText(t.eventId))]
  }

  function SigningPayload(t: Token): Bytes {
    CanonicalBytes(Obj(Claims(t)))
  }

  /** Two tokens that grant the same thing: all claims equal, conditions up to key order. */
  predicate SameGrant(t: Token, u: Token) {
    && t.(conditions := [], signature := None) == u.(conditions := [], signature := None)
    && Same(Obj(t.conditions), Obj(u.conditions))
  }

  /** What a signing encoding must do for a signature to pin down the grant. */
  ghost predicate Distinguishes(payload: Token -> Bytes) {
    forall t, u :: payload(t) == payload(u) ==> SameGrant(t, u)
  }

  const CLAIM_KEYS: seq<string> := [
    "token_id", "agent_id", "workflow_id", "authority_class", "max_consequence_rank", "conditions",
    "issued_at", "expires_at", "nonce", "single_use", "issuer", "event_id"]

  lemma ClaimKeysDistinct()
    ensures forall i, j :: 0 <= i < j < |CLAIM_KEYS| ==> CLAIM_KEYS[i] != CLAIM_KEYS[j]
  {
    var k := CLAIM_KEYS;
    assert |k[0]| == 8 && |k[1]| == 8 && |k[2]| == 11 && |k[3]| == 15 && |k[4]| == 20 && |k[5]| == 10;
    assert |k[6]| == 9 && |k[7]| == 10 && |k[8]| == 5 && |k[9]| == 10 && |k[10]| == 6 && |k[11]| == 8;
    assert k[0][0] == 't' && k[1][0] == 'a' && k[11][0] == 'e';
    assert k[5][0] == 'c' && k[7][0] == 'e' && k[9][0] == 's';
  }

  lemma ClaimsWellFormed(t: Token)
    ensures WellFormed(Obj(Claims(t)))
  {
    ClaimKeysDistinct();
    var c := Claims(t);
    forall i | 0 <= i < |c| ensures c[i].key == CLAIM_KEYS[i] && WellFormed(c[i].value) {}
  }

  lemma ClaimAt(t: Token, u: Token, i: nat)
    requires i < 12 && SameFields(Claims(t), Claims(u))
    ensures Same(Claims(t)[i].value, Claims(u)[i].value)
  {
    ClaimsWellFormed(u);
    LookupAt(Claims(u), i);
    assert Claims(t)[i].key == Claims(u)[i].key == CLAIM_KEYS[i];
  }

  /** The canonical signing payload determines the grant, so a signature made for one token is a
      signature for no other grant. */
  lemma PayloadDeterminesGrant(t: Token, u: Token)
    requires SigningPayload(t) == SigningPayload(u)
    ensures SameGrant(t, u)
  {
    ClaimsWellFormed(t);
    ClaimsWellFormed(u);
    CanonicalBytesDetermineValue(Obj(Claims(t)), Obj(Claims(u)));
    forall i | 0 <= i < 12 ensures Same(Claims(t)[i].value, Claims(u)[i].value) {
      ClaimAt(t, u, i);
    }
    ClaimsAgree(t, u);
  }

  lemma ClaimsAgree(t: Token, u: Token)
    requires forall i :: 0 <= i < 12 ==> Same(Claims(t)[i].value, Claims(u)[i].value)
    ensures SameGrant(t, u)
  {
    var c, d := Claims(t), Claims(u);
    assert Same(c[0].value, d[0].value) && Same(c[1].value, d[1].value) && Same(c[2].value, d[2].value);
    assert Same(c[3].value, d[3].value) && Same(c[4].value, d[4].value) && Same(c[5].value, d[5].value);
    assert Same(c[6].value, d[6].value) && Same(c[7].value, d[7].value) && Same(c[8].value, d[8].value);
    assert Same(c[9].value, d[9].value) && Same(c[10].value, d[10].value) && Same(c[11].value, d[11].value);
    NamesDiffer(t.authority, u.authority);
  }

  lemma CanonicalPayloadDistinguishes()
    ensures Distinguishes(SigningPayload)
  {
    forall t, u | SigningPayload(t) == SigningPayload(u) ensures SameGrant(t, u) {
      PayloadDeterminesGrant(t, u);
    }
  }

  // ---------- the token as a dict ----------

  /** The dict holds the token's claims under their names, whatever else and in whatever order. */
  ghost predicate Holds(d: seq<Field>, t: Token) {
    && Lookup(d, "token_id") == Some(Str(t.tokenId)) && Lookup(d, "agent_id") == Some(Str(t.agentId))
    && Lookup(d, "workflow_id") == Some(Str(t.workflowId)) && Lookup(d, "authority_class") == Some(Str(Name(t.authority)))
    && Lookup(d, "max_consequence_rank") == Some(Num(t.maxConsequenceRank))
    && Lookup(d, "conditions") == Some(Obj(t.conditions))
    && Lookup(d, "issued_at") == Some(Str(t.issuedAt)) && Lookup(d, "expires_at") == Some(Str(t.expiresAt))
    && Lookup(d, "nonce") == Some(Str(t.nonce)) && Lookup(d, "single_use") == Some(Bool(t.singleUse))
    && Lookup(d, "issuer") == Some(Str(t.issuer)) && Lookup(d, "event_id") == Some(OptionalText(t.eventId))
  }

  /** The client gets its token back from the dict it is sent as: the dict holds the claims, and claims
      of no other token. */
  lemma DictHoldsToken(t: Token, u: Token)
    ensures Holds(Claims(t), u) <==> u.(signature := None) == t.(signature := None)
  {
    DictHoldsClaims(t);
    if Holds(Claims(t), u) { NamesDiffer(t.authority, u.authority); }
  }

  lemma DictHoldsClaims(t: Token)
    ensures Holds(Claims(t), t)
  {
    ClaimsWellFormed(t);
    var c := Claims(t);
    forall i | 0 <= i < 12 ensures Lookup(c, CLAIM_KEYS[i]) == Some(c[i].value) {
      LookupAt(c, i);
    }
    assert CLAIM_KEYS[0] == "token_id" && CLAIM_KEYS[1] == "agent_id" && CLAIM_KEYS[2] == "workflow_id";
    assert CLAIM_KEYS[3] == "authority_class" && CLAIM_KEYS[4] == "max_consequence_rank" && CLAIM_KEYS[5] == "conditions";
    assert CLAIM_KEYS[6] == "issued_at" && CLAIM_KEYS[7] == "expires_at" && CLAIM_KEYS[8] == "nonce";
    assert CLAIM_KEYS[9] == "single_use" && CLAIM_KEYS[10] == "issuer" && CLAIM_KEYS[11] == "event_id";
  }
}
