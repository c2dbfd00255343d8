/** The capability service (earned_autonomy/core/capability.py). */
module CapabilityServices {
  import opened Options
  import opened JsonValues
  import opened CanonicalProperties
  import opened Instants
  import opened Ontology
  import opened Models
  import opened Conditions
  import opened Signing
  import opened Tokens
  import opened TokenStates
  import opened CapabilityStores
  import opened Capabilities
  import opened ConditionLaws

  class CapabilityService {
    const issuer: Issuer
    const state: StateStore

    constructor (issuer: Issuer, state: StateStore)
      ensures this.issuer == issuer && this.state == state
    {
      this.issuer, this.state := issuer, state;
    }

    /** `tokenId` and `nonce` are fresh uuids, `now` is the clock. */
    method Mint(scope: Scope, conditions: DictFields, ttlSeconds: int, singleUse: bool, eventId: Option<string>,
                now: Instant, tokenId: string, nonce: string)
      returns (token: Token)
      requires 0 <= now + ttlSeconds * SECOND < MAX_INSTANT
      modifies state.Footprint()
      ensures token == Mintage(issuer, scope, conditions, now, ttlSeconds, singleUse, eventId, tokenId, nonce)
      ensures state.View() == Record(old(state.View()), token)
    {
      var expires: Instant := now + ttlSeconds * SECOND;
      token := Token(tokenId, scope.agentId, scope.workflowId, scope.authority, ConsequenceRank(scope.authority),
                     conditions, Iso(now), Iso(expires), nonce, singleUse, issuer.name, eventId, None);
      token := token.(signature := Some(Sign(issuer.key, issuer.payload(token))));
      state.RecordIssued(token.tokenId, Issued(scope, Iso(expires)));
    }

    method VerifyForAction(token: Token, action: Scope, context: Dict, now: Instant) returns (r: Verification)
      modifies state.Footprint()
      ensures (r, state.View()) ==
              Capabilities.VerifyForAction(issuer, old(state.View()), token, action, context, now)
      ensures r == Accepted <==>
              && SignatureValid(issuer, token) && !IsRevoked(old(state.View()), token.tokenId) && Unexpired(token, now)
              && action == TokenScope(token) && RankWithin(token, context) && MeetsAll(token.conditions, context)
              && (token.singleUse ==> CanConsume(old(state.View()), token.tokenId))
    {
      AcceptedExactly(issuer, state.View(), token, action, context, now);
      if token.signature == None || !Verify(issuer.key, issuer.payload(token), token.signature.value) {
        return Refused(InvalidSignature);
      }
      var revoked := state.IsRevoked(token.tokenId);
      if revoked {
        return Refused(TokenRevoked);
      }
      match FromIso(token.expiresAt) {
        case None => return Refused(MalformedExpiry);
        case Some(expires) =>
          if now >= expires {
            return Refused(TokenExpired);
          }
      }
      if action.agentId != token.agentId {
        return Refused(AgentMismatch);
      }
      if action.workflowId != token.workflowId {
        return Refused(WorkflowMismatch);
      }
      if action.authority != token.authority {
        return Refused(ClassMismatch);
      }
      var rank := RankCheck(token, context);
      if rank != Accepted {
        return rank;
      }
      var conditions := CheckConditions(token.conditions, context);
      match conditions {
        case Raises => return Error;
        case No => return Refused(ConditionFailed);
        case Yes =>
      }
      if token.singleUse {
        var consumed := state.TryConsume(token.tokenId);
        if !consumed {
          revoked := state.IsRevoked(token.tokenId);
          return Refused(if revoked then TokenRevoked else AlreadyConsumed);
        }
      }
      return Accepted;
    }

    method Revoke(tokenId: string)
      modifies state.Footprint()
      ensures state.View() == TokenStates.Revoke(old(state.View()), tokenId)
    {
      state.Revoke(tokenId);
    }

    method RevokeScope(scope: Scope) returns (count: nat)
      modifies state.Footprint()
      ensures state.View() == TokenStates.RevokeScope(old(state.View()), scope)
      ensures count == |LiveIn(old(state.View()), scope)|
    {
      count := state.RevokeScope(scope);
    }

    method PurgeExpired(nowIso: string) returns (count: nat)
      modifies state.Footprint()
      ensures state.View() == Purge(old(state.View()), nowIso)
      ensures count == |ExpiredIds(old(state.View()), nowIso)|
    {
      count := state.PurgeExpired(nowIso);
    }
  }
}
