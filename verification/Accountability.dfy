/** Who stands behind what happens: in strict mode every accepted event is signed by its registered
    agent, and an owner's approval never counts for a class that separates duties. Over whole runs. */
module Accountability {
  import opened Ontology
  import opened Models
  import opened Signing
  import opened Trust
  import opened Capabilities
  import opened Recommendations
  import opened Planes
  import opened Machine
  import opened Provenance
  import Ceilings

  // ---------- authentication ----------

  /** The event carries a signature that the key now registered for its agent verifies. */
  predicate SignedAt(cfg: Config, p: Plane, e: Event) {
    && e.agentId in p.agents && p.agents[e.agentId].active
    && HasKey(p.agents[e.agentId]) && e.signature.Some?
    && Verify(p.agents[e.agentId].publicKey.value, cfg.eventPayload(e), e.signature.value)
  }

  /** At some moment of the run the event was proposed with such a signature. */
  ghost predicate SignedDuring(cfg: Config, w: World, steps: seq<Step>, e: Event)
    requires LegalRun(cfg, w, steps)
    decreases |steps|
  {
    steps != [] &&
    (|| (steps[0].DoPropose? && steps[0].event == e && SignedAt(cfg, w.plane, e))
     || SignedDuring(cfg, Perform(cfg, w, steps[0]), steps[1..], e))
  }

  /** A proposal accepts its event exactly when nothing refuses it; in strict mode it is then signed. */
  lemma ProposeAccepts(cfg: Config, p: Plane, e: Event, around: Around)
    requires TtlFits(cfg, around.now)
    ensures Propose(cfg, p, e, around).0.accepted ==
            if Refuses(cfg, Enrolled(cfg, p, e), e).None? then p.accepted + [e] else p.accepted
    ensures cfg.strict && Refuses(cfg, Enrolled(cfg, p, e), e).None? ==> SignedAt(cfg, p, e)
  {
    var p1 := Enrolled(cfg, p, e);
    if Refuses(cfg, p1, e).None? { Ceilings.ConcludeOnlyMints(cfg, Accept(p1, e), e, around); }
  }

  lemma StepAccepts(cfg: Config, w: World, step: Step)
    requires LegalStep(cfg, w, step)
    ensures
      var accepted := Perform(cfg, w, step).plane.accepted;
      || accepted == w.plane.accepted
      || (step.DoPropose? && accepted == w.plane.accepted + [step.event]
          && (cfg.strict ==> SignedAt(cfg, w.plane, step.event)))
  {
    if step.DoPropose? { ProposeAccepts(cfg, w.plane, step.event, step.around); }
  }

  /** In strict mode every event a run accepts was proposed with a signature valid under the key then
      registered for its agent. */
  lemma {:induction false} AcceptedEventsAreSigned(cfg: Config, w: World, steps: seq<Step>)
    requires cfg.strict && LegalRun(cfg, w, steps)
    ensures
      var accepted := RunOf(cfg, w, steps).plane.accepted;
      && w.plane.accepted <= accepted
      && forall i :: |w.plane.accepted| <= i < |accepted| ==> SignedDuring(cfg, w, steps, accepted[i])
    decreases |steps|
  {
    if steps != [] {
      var w1 := Perform(cfg, w, steps[0]);
      StepAccepts(cfg, w, steps[0]);
      AcceptedEventsAreSigned(cfg, w1, steps[1..]);
      var accepted := RunOf(cfg, w, steps).plane.accepted;
      forall i | |w.plane.accepted| <= i < |accepted| ensures SignedDuring(cfg, w, steps, accepted[i]) {
        if i < |w1.plane.accepted| { assert accepted[i] == w1.plane.accepted[i]; }
      }
    }
  }

  /** The execution ran under the token of an event that was signed in the run. */
  ghost predicate BackedBySignature(cfg: Config, w: World, steps: seq<Step>, x: Execution)
    requires LegalRun(cfg, w, steps)
  {
    var grants := RunOf(cfg, w, steps).plane.grants;
    exists j :: 0 <= j < |grants| && RunsUnder(grants[j], x) && SignedDuring(cfg, w, steps, grants[j].event)
  }

  /** Hence in strict mode every execution goes back to an event its agent signed. */
  lemma ExecutionsAreSigned(cfg: Config, w: World, steps: seq<Step>)
    requires Sound(cfg.issuer) && cfg.strict && Initial(w) && LegalRun(cfg, w, steps)
    ensures
      var w' := RunOf(cfg, w, steps);
      forall i :: 0 <= i < |w'.executed| ==> BackedBySignature(cfg, w, steps, w'.executed[i])
  {
    var w' := RunOf(cfg, w, steps);
    ProvenanceOfRuns(cfg, w, steps);
    AcceptedEventsAreSigned(cfg, w, steps);
    forall i | 0 <= i < |w'.executed| ensures BackedBySignature(cfg, w, steps, w'.executed[i]) {
      assert HasGrant(w'.plane, w'.executed[i]);
      var j :| 0 <= j < |w'.plane.grants| && RunsUnder(w'.plane.grants[j], w'.executed[i]);
      assert w'.plane.accepted[w'.plane.grants[j].accepted] == w'.plane.grants[j].event;
    }
  }

  // ---------- separation of duties ----------

  /** The approvals a record counts, with edits or without. */
  function Approvals(s: Stats): nat {
    s.clean + s.modified
  }

  /** The step approves an event of the scope, by someone other than the owner of its agent. */
  predicate ApprovedByOther(p: Plane, step: Step, k: Scope) {
    && step.DoSubmit? && step.eventId in p.events && ScopeOf(p.events[step.eventId]) == k && Approves(step.outcome)
    && !(k.agentId in p.agents && step.approver == p.agents[k.agentId].ownerId)
  }

  ghost function OthersApprovals(cfg: Config, w: World, steps: seq<Step>, k: Scope): nat
    requires LegalRun(cfg, w, steps)
    decreases |steps|
  {
    if steps == [] then 0
    else (if ApprovedByOther(w.plane, steps[0], k) then 1 else 0) + OthersApprovals(cfg, Perform(cfg, w, steps[0]), steps[1..], k)
  }

  lemma ReadAfterApply(m: Memory, at: Scope, eventId: string, o: Outcome, k: Scope)
    ensures Read(Apply(m, at, eventId, o), k) ==
            if k == at && eventId !in Read(m, at).decided then Count(Read(m, at), o).(decided := Read(m, at).decided + [eventId])
            else Read(m, k)
  {}

  lemma CountApproves(s: Stats, eventId: string, o: Outcome)
    ensures Approvals(Count(s, o).(decided := s.decided + [eventId])) == Approvals(s) + (if Approves(o) then 1 else 0)
  {}

  lemma ApplyApproves(m: Memory, at: Scope, eventId: string, o: Outcome, k: Scope)
    ensures Approvals(Read(Apply(m, at, eventId, o), k)) <=
            Approvals(Read(m, k)) + (if at == k && Approves(o) then 1 else 0)
  {
    ReadAfterApply(m, at, eventId, o, k);
    CountApproves(Read(m, at), eventId, o);
  }

  lemma SubmitMemory(p: Plane, eventId: string, approver: string, o: Outcome, engine: Engine)
    ensures Submit(p, eventId, approver, o, engine).0.memory ==
            if eventId in p.events && !OwnerApproval(p, p.events[eventId], approver, o)
            then Apply(p.memory, ScopeOf(p.events[eventId]), eventId, o) else p.memory
  {}

  /** One submission adds an approval to a record only if it is someone else's. */
  lemma SubmitSeparates(p: Plane, step: Step, k: Scope)
    requires step.DoSubmit? && RequiresSeparationOfDuties(k.authority)
    ensures Approvals(Read(Submit(p, step.eventId, step.approver, step.outcome, step.engine).0.memory, k)) <=
            Approvals(Read(p.memory, k)) + (if ApprovedByOther(p, step, k) then 1 else 0)
  {
    SubmitMemory(p, step.eventId, step.approver, step.outcome, step.engine);
    if step.eventId in p.events {
      var at := ScopeOf(p.events[step.eventId]);
      ApplyApproves(p.memory, at, step.eventId, step.outcome, k);
      if at == k && Approves(step.outcome) && !OwnerApproval(p, p.events[step.eventId], step.approver, step.outcome) {
        assert ApprovedByOther(p, step, k);
      }
    }
  }

  lemma StepSeparates(cfg: Config, w: World, step: Step, k: Scope)
    requires LegalStep(cfg, w, step) && RequiresSeparationOfDuties(k.authority)
    ensures Approvals(Read(Perform(cfg, w, step).plane.memory, k)) <=
            Approvals(Read(w.plane.memory, k)) + (if ApprovedByOther(w.plane, step, k) then 1 else 0)
  {
    match step
    case DoSubmit(_, _, _, _) => SubmitSeparates(w.plane, step, k);
    case DoPropose(e, around) => Ceilings.ProposeAgents(cfg, w.plane, e, around);
    case _ =>
  }

  /** For a class that separates duties no run counts more approvals than people other than the owner
      gave: the owner's own never count. */
  lemma {:induction false} OwnersNeverCount(cfg: Config, w: World, steps: seq<Step>, k: Scope)
    requires LegalRun(cfg, w, steps) && RequiresSeparationOfDuties(k.authority)
    ensures Approvals(Read(RunOf(cfg, w, steps).plane.memory, k)) <=
            Approvals(Read(w.plane.memory, k)) + OthersApprovals(cfg, w, steps, k)
    decreases |steps|
  {
    if steps != [] {
      StepSeparates(cfg, w, steps[0], k);
      OwnersNeverCount(cfg, Perform(cfg, w, steps[0]), steps[1..], k);
    }
  }
}
