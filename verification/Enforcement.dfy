/** The enforcement point and the agent's client
    (earned_autonomy/enforcement/pep.py, earned_autonomy/enforcement/sdk.py). */
module Enforcement {
  import opened Options
  import opened JsonValues
  import opened Instants
  import opened Ontology
  import opened Models
  import opened Signing
  import opened Tokens
  import opened Capabilities
  import opened CapabilityServices
  import opened ControlPlanes
  import opened Machine
  import opened Sdk

  datatype ExecutionResult = ExecutionResult(allowed: bool, verification: Option<Verification>)

  /** What the event sink is told. */
  datatype Notice = Denial(scope: Scope) | Allowance(scope: Scope)

  /** The one place where an action is performed; performing it is the append to `executed`. */
  class PolicyEnforcementPoint {
    const capabilities: CapabilityService
    var executed: seq<Execution>
    var notices: seq<Notice>

    constructor (capabilities: CapabilityService)
      ensures this.capabilities == capabilities && executed == [] && notices == []
    {
      this.capabilities, executed, notices := capabilities, [], [];
    }

    method Execute(token: Option<Token>, action: Scope, context: Dict, now: Instant) returns (r: ExecutionResult)
      requires this !in capabilities.state.Footprint()
      modifies this, capabilities.state.Footprint()
      ensures token == None ==> r == ExecutionResult(false, None)
                                && capabilities.state.View() == old(capabilities.state.View()) && executed == old(executed)
      ensures token.Some? ==>
                var v := VerifyForAction(capabilities.issuer, old(capabilities.state.View()), token.value, action, context, now);
                && r == ExecutionResult(v.0 == Accepted, Some(v.0)) && capabilities.state.View() == v.1
                && executed == if r.allowed then old(executed) + [Execution(token.value, action)] else old(executed)
      ensures notices == old(notices) + [if r.allowed then Allowance(action) else Denial(action)]
    {
      if token == None {
        notices := notices + [Denial(action)];
        return ExecutionResult(false, None);
      }
      var v := capabilities.VerifyForAction(token.value, action, context, now);
      if v != Accepted {
        notices := notices + [Denial(action)];
        return ExecutionResult(false, Some(v));
      }
      executed := executed + [Execution(token.value, action)];
      notices := notices + [Allowance(action)];
      return ExecutionResult(true, Some(v));
    }
  }

  /** An agent's side: it signs its events and takes its tokens to the enforcement point. */
  class AgentClient {
    const agentId: string
    const ownerId: string
    const key: string
    const cp: EarnedAutonomyControlPlane
    const pep: PolicyEnforcementPoint

    constructor (agentId: string, ownerId: string, key: string, cp: EarnedAutonomyControlPlane, pep: PolicyEnforcementPoint)
      ensures this.agentId == agentId && this.ownerId == ownerId && this.key == key && this.cp == cp && this.pep == pep
    {
      this.agentId, this.ownerId, this.key, this.cp, this.pep := agentId, ownerId, key, cp, pep;
    }

    /** The event under the agent's own name, signed; `draft` holds the other fields. A control plane
        that knows the agent's key accepts the signature. */
    method BuildEvent(draft: Event) returns (e: Event)
      requires forall d: Event :: cp.cfg.eventPayload(d) == cp.cfg.eventPayload(d.(signature := None))
      ensures e.(signature := None) == draft.(agentId := agentId, humanOwnerId := ownerId, signature := None)
      ensures e.signature.Some? && Verify(key, cp.cfg.eventPayload(e), e.signature.value)
    {
      e := draft.(agentId := agentId, humanOwnerId := ownerId, signature := None);
      e := e.(signature := Some(Sign(key, cp.cfg.eventPayload(e))));
    }

    /** Presents the token of an event with the event's own attributes; the whole call is one step of
        the system. */
    method Execute(e: Event, token: Option<Token>, overrides: Dict, now: Instant) returns (r: ExecutionResult)
      requires cp.Valid() && pep.capabilities == cp.capabilities && pep !in cp.Footprint()
      modifies cp`plane, pep, cp.capabilities.state.Footprint()
      ensures cp.Valid()
      ensures
        var before := World(old(cp.plane), now, old(pep.executed));
        var context := ActionContext(e.metadata, overrides, e.authority);
        World(cp.plane, now, pep.executed) ==
        if token == None then before
        else Perform(cp.cfg, before, DoExecute(token.value, Scope(agentId, e.workflowId, e.authority), context))
      ensures r.allowed <==> pep.executed != old(pep.executed)
    {
      var ctx := e.metadata;
      ctx := ctx + overrides;
      ctx := SetDefault(ctx, "consequence_rank", Num(ConsequenceRank(e.authority)));
      r := pep.Execute(token, Scope(agentId, e.workflowId, e.authority), ctx, now);
      cp.Refresh();
    }
  }
}
