/** Trust accounting over whole runs: every counted decision goes back to its own accepted event. */
module TrustAccounting {
  import opened Models
  import opened Trust
  import opened Planes
  import opened Machine
  import opened OperationLaws
  import opened Provenance
  import Ceilings
  import Recommendations
  import Wilson

  /** Some accepted event of the scope has the id. */
  ghost predicate Heard(accepted: seq<Event>, k: Scope, id: string) {
    exists i :: 0 <= i < |accepted| && accepted[i].eventId == id && ScopeOf(accepted[i]) == k
  }

  /** Stored events are accepted ones, filed under their own id, of agents that exist. */
  ghost predicate EventsMatch(p: Plane) {
    forall id :: id in p.events ==>
      && Heard(p.accepted, ScopeOf(p.events[id]), id)
      && p.events[id].agentId in p.agents
  }

  /** Every counted decision was on an accepted event of its scope. */
  ghost predicate DecisionsHeard(accepted: seq<Event>, m: Memory) {
    forall k, id :: k in m && id in m[k].decided ==> Heard(accepted, k, id)
  }

  ghost predicate Accounted(p: Plane) {
    HonestMemory(p.memory) && EventsMatch(p) && DecisionsHeard(p.accepted, p.memory)
  }

  // ---------- every step keeps the books ----------

  lemma HeardStays(accepted: seq<Event>, more: seq<Event>, k: Scope, id: string)
    requires accepted <= more && Heard(accepted, k, id)
    ensures Heard(more, k, id)
  {
    var i :| 0 <= i < |accepted| && accepted[i].eventId == id && ScopeOf(accepted[i]) == k;
    assert more[i] == accepted[i];
  }

  lemma AcceptKeepsAccounts(p: Plane, e: Event)
    requires Accounted(p) && e.agentId in p.agents
    ensures Accounted(Accept(p, e))
  {
    var p' := Accept(p, e);
    assert p'.accepted[|p.accepted|] == e;
    forall id | id in p'.events ensures Heard(p'.accepted, ScopeOf(p'.events[id]), id) {
      if id != e.eventId { HeardStays(p.accepted, p'.accepted, ScopeOf(p.events[id]), id); }
    }
    forall k, id | k in p.memory && id in p.memory[k].decided ensures Heard(p'.accepted, k, id) {
      HeardStays(p.accepted, p'.accepted, k, id);
    }
  }

  lemma EnrolledKeepsAccounts(cfg: Config, p: Plane, e: Event)
    requires Accounted(p)
    ensures Accounted(Enrolled(cfg, p, e))
  {}

  lemma ProposeKeepsAccounts(cfg: Config, p: Plane, e: Event, around: Around)
    requires Accounted(p) && TtlFits(cfg, around.now)
    ensures Accounted(Propose(cfg, p, e, around).0)
  {
    var p1 := Enrolled(cfg, p, e);
    EnrolledKeepsAccounts(cfg, p, e);
    if Refuses(cfg, p1, e).None? {
      AcceptKeepsAccounts(p1, e);
      Ceilings.ConcludeOnlyMints(cfg, Accept(p1, e), e, around);
    }
  }

  lemma SubmitKeepsAccounts(p: Plane, id: string, approver: string, o: Outcome, engine: Recommendations.Engine)
    requires Accounted(p)
    ensures Accounted(Submit(p, id, approver, o, engine).0)
  {
    if id in p.events {
      var k := ScopeOf(p.events[id]);
      ApplyKeepsHonest(p.memory, k, id, o);
      var m := Apply(p.memory, k, id, o);
      forall k', id' | k' in m && id' in m[k'].decided ensures Heard(p.accepted, k', id') {
        if k' != k { assert m[k'] == p.memory[k']; }
      }
    }
  }

  lemma TouchKeepsAccounts(p: Plane, k: Scope)
    requires Accounted(p)
    ensures Accounted(p.(memory := Touch(p.memory, k)))
  {}

  lemma IncidentKeepsAccounts(p: Plane, k: Scope, reason: string)
    requires Accounted(p)
    ensures Accounted(Incident(p, k, reason))
  {
    var m := AddIncident(p.memory, k);
    assert m[k].decided == Read(p.memory, k).decided;
    forall k' | k' in m ensures Honest(m[k']) {
      assert k' != k ==> m[k'] == p.memory[k'];
    }
  }

  lemma StepKeepsAccounts(cfg: Config, w: World, step: Step)
    requires LegalStep(cfg, w, step) && Accounted(w.plane)
    ensures Accounted(Perform(cfg, w, step).plane)
  {
    var p := w.plane;
    match step
    case DoPropose(e, around) => ProposeKeepsAccounts(cfg, p, e, around);
    case DoSubmit(id, approver, o, engine) => SubmitKeepsAccounts(p, id, approver, o, engine);
    case DoRecommend(k, _) => TouchKeepsAccounts(p, k);
    case DoIncident(k, reason) => IncidentKeepsAccounts(p, k, reason);
    case _ =>
      var p' := Perform(cfg, w, step).plane;
      assert p'.memory == p.memory && p'.events == p.events && p'.accepted == p.accepted && p.agents.Keys <= p'.agents.Keys;
  }

  lemma {:induction false} RunKeepsAccounts(cfg: Config, w: World, steps: seq<Step>)
    requires LegalRun(cfg, w, steps) && Accounted(w.plane)
    ensures Accounted(RunOf(cfg, w, steps).plane)
    decreases |steps|
  {
    if steps != [] {
      StepKeepsAccounts(cfg, w, steps[0]);
      RunKeepsAccounts(cfg, Perform(cfg, w, steps[0]), steps[1..]);
    }
  }

  // ---------- the grand total ----------

  ghost function SomeKey(m: Memory): (k: Scope)
    requires m != map[]
    ensures k in m
  {
    var k :| k in m;
    k
  }

  /** The decisions counted under all keys together. */
  ghost function GrandTotal(m: Memory): nat
    decreases |m|
  {
    if m == map[] then 0 else m[SomeKey(m)].Total() + GrandTotal(m - {SomeKey(m)})
  }

  ghost function DecidedPairs(m: Memory): set<(Scope, string)> {
    set k, id | k in m && id in m[k].decided :: (k, id)
  }

  lemma {:induction false} DistinctPairs(k: Scope, ids: seq<string>)
    requires Distinct(ids)
    ensures |set id | id in ids :: (k, id)| == |ids|
  {
    if ids == [] {
      assert (set id | id in ids :: (k, id)) == {};
    } else {
      var rest := ids[..|ids| - 1];
      DistinctPairs(k, rest);
      assert ids == rest + [ids[|ids| - 1]];
      assert (set id | id in ids :: (k, id)) == (set id | id in rest :: (k, id)) + {(k, ids[|ids| - 1])};
    }
  }

  /** The grand total counts each pair of key and event id once. */
  lemma {:induction false} GrandTotalCountsPairs(m: Memory)
    requires HonestMemory(m)
    ensures GrandTotal(m) == |DecidedPairs(m)|
    decreases |m|
  {
    if m == map[] {
      assert DecidedPairs(m) == {};
    } else {
      var k := SomeKey(m);
      var own := set id | id in m[k].decided :: (k, id);
      GrandTotalCountsPairs(m - {k});
      DistinctPairs(k, m[k].decided);
      assert DecidedPairs(m) == DecidedPairs(m - {k}) + own;
      assert DecidedPairs(m - {k}) !! own;
    }
  }

  /** The grand total never exceeds the accepted events. */
  lemma TotalWithinEvents(p: Plane)
    requires Accounted(p)
    ensures GrandTotal(p.memory) <= |p.accepted|
  {
    var pairs := seq(|p.accepted|, i requires 0 <= i < |p.accepted| => (ScopeOf(p.accepted[i]), p.accepted[i].eventId));
    forall x | x in DecidedPairs(p.memory) ensures x in pairs {
      assert Heard(p.accepted, x.0, x.1);
      var i :| 0 <= i < |p.accepted| && p.accepted[i].eventId == x.1 && ScopeOf(p.accepted[i]) == x.0;
      assert pairs[i] == x;
    }
    SetFitsSeq(DecidedPairs(p.memory), pairs);
    GrandTotalCountsPairs(p.memory);
  }

  // ---------- the theorems ----------

  ghost predicate FreshEventIds(p: Plane) {
    forall i, j :: 0 <= i < j < |p.accepted| ==> p.accepted[i].eventId != p.accepted[j].eventId
  }

  /** No event id is counted under two keys. */
  ghost predicate KeysDisjoint(m: Memory) {
    forall k, k', id :: k in m && k' in m && k != k' ==> !(id in m[k].decided && id in m[k'].decided)
  }

  /** In every run: each key counts its decided event ids, all distinct; the grand total stays within
      the accepted events; and when event ids are fresh no id is counted under two keys. */
  lemma TrustCountsEvents(cfg: Config, w: World, steps: seq<Step>)
    requires Initial(w) && LegalRun(cfg, w, steps)
    ensures
      var p := RunOf(cfg, w, steps).plane;
      && (forall k :: k in p.memory ==> Distinct(p.memory[k].decided) && p.memory[k].Total() == |p.memory[k].decided|)
      && DecisionsHeard(p.accepted, p.memory)
      && GrandTotal(p.memory) <= |p.accepted|
      && (FreshEventIds(p) ==> KeysDisjoint(p.memory))
  {
    RunKeepsAccounts(cfg, w, steps);
    var p := RunOf(cfg, w, steps).plane;
    TotalWithinEvents(p);
    if FreshEventIds(p) { FreshIdsSeparateKeys(p); }
  }

  lemma FreshIdsSeparateKeys(p: Plane)
    requires DecisionsHeard(p.accepted, p.memory) && FreshEventIds(p)
    ensures KeysDisjoint(p.memory)
  {
    var m := p.memory;
    forall k, k', id | k in m && k' in m && k != k' ensures !(id in m[k].decided && id in m[k'].decided) {
      if id in m[k].decided && id in m[k'].decided {
        assert Heard(p.accepted, k, id) && Heard(p.accepted, k', id);
        var i :| 0 <= i < |p.accepted| && p.accepted[i].eventId == id && ScopeOf(p.accepted[i]) == k;
        var j :| 0 <= j < |p.accepted| && p.accepted[j].eventId == id && ScopeOf(p.accepted[j]) == k';
      }
    }
  }

  /** Freshness is needed: an id already counted under one key is counted again as soon as a later
      event of another scope carries it, unless the approver is the owner. */
  lemma ReusedIdCountsAgain(p: Plane, id: string, k: Scope, approver: string, o: Outcome, engine: Recommendations.Engine)
    requires Accounted(p) && k in p.memory && id in p.memory[k].decided
    requires id in p.events && ScopeOf(p.events[id]) != k && id !in Read(p.memory, ScopeOf(p.events[id])).decided
    ensures KeysDisjoint(p.memory) ==>
              (KeysDisjoint(Submit(p, id, approver, o, engine).0.memory) <==> OwnerApproval(p, p.events[id], approver, o))
  {
    var k' := ScopeOf(p.events[id]);
    var m := Submit(p, id, approver, o, engine).0.memory;
    ApplyCountsOnce(p.memory, k', id, o);
    if !OwnerApproval(p, p.events[id], approver, o) {
      assert m == Apply(p.memory, k', id, o);
      assert m[k] == p.memory[k];
      assert id in m[k'].decided && id in m[k].decided;
    }
  }

  /** A submitted decision moves the total of its event's key by one, or nothing; never another key,
      and never only half: in a reachable state the recommendation that follows a count succeeds. */
  lemma SubmitCountsOnce(p: Plane, id: string, approver: string, o: Outcome, engine: Recommendations.Engine)
    requires Accounted(p)
    ensures
      var r := Submit(p, id, approver, o, engine);
      && r.1 != UnknownDecidedAgent
      && (r.1.DecisionCounted? <==>
            && id in p.events && !OwnerApproval(p, p.events[id], approver, o)
            && id !in Read(p.memory, ScopeOf(p.events[id])).decided)
      && (forall k :: Read(r.0.memory, k).Total() ==
            Read(p.memory, k).Total() + (if r.1.DecisionCounted? && k == ScopeOf(p.events[id]) then 1 else 0))
      && (forall k :: !r.1.DecisionCounted? || k != ScopeOf(p.events[id]) ==> Read(r.0.memory, k) == Read(p.memory, k))
  {
    if id in p.events {
      ApplyKeepsHonest(p.memory, ScopeOf(p.events[id]), id, o);
      ApplyCountsOnce(p.memory, ScopeOf(p.events[id]), id, o);
    }
  }

  // ---------- what the counters count ----------

  /** The step counts a decision under the key: on an event of that scope, not yet decided, and not an
      owner's approval where somebody else's is asked for. */
  predicate CountsUnder(p: Plane, step: Step, k: Scope) {
    && step.DoSubmit? && step.eventId in p.events && ScopeOf(p.events[step.eventId]) == k
    && !OwnersApproval(p, p.events[step.eventId], step.approver, step.outcome)
    && step.eventId !in Read(p.memory, k).decided
  }

  function CountedBy(p: Plane, step: Step, k: Scope): multiset<Outcome> {
    if CountsUnder(p, step, k) then multiset{step.outcome} else multiset{}
  }

  /** The outcomes counted under the key in a run. */
  ghost function CountedIn(cfg: Config, w: World, steps: seq<Step>, k: Scope): multiset<Outcome>
    requires LegalRun(cfg, w, steps)
    decreases |steps|
  {
    if steps == [] then multiset{} else CountedBy(w.plane, steps[0], k) + CountedIn(cfg, Perform(cfg, w, steps[0]), steps[1..], k)
  }

  function IncidentsIn(steps: seq<Step>, k: Scope): nat {
    if steps == [] then 0 else (if steps[0].DoIncident? && steps[0].scope == k then 1 else 0) + IncidentsIn(steps[1..], k)
  }

  /** Each counter has grown by the outcomes of its kind. */
  ghost predicate Grown(s: Stats, s': Stats, outcomes: multiset<Outcome>, incidents: nat) {
    && s'.clean == s.clean + outcomes[Approved] + outcomes[ConvertedToDelegationRule]
    && s'.modified == s.modified + outcomes[ModifiedAndApproved]
    && s'.rejections == s.rejections + outcomes[Rejected]
    && s'.escalations == s.escalations + outcomes[Escalated]
    && s'.evidenceRequests == s.evidenceRequests + outcomes[MoreEvidenceRequested]
    && s'.incidents == s.incidents + incidents
    && s'.samplesReviewed == s.samplesReviewed
  }

  lemma CountGrows(s: Stats, o: Outcome, eventId: string)
    ensures Grown(s, Count(s, o).(decided := s.decided + [eventId]), multiset{o}, 0)
  {}

  lemma SubmitGrows(p: Plane, step: Step, k: Scope)
    requires step.DoSubmit?
    ensures Grown(Read(p.memory, k), Read(Submit(p, step.eventId, step.approver, step.outcome, step.engine).0.memory, k),
                  CountedBy(p, step, k), 0)
  {
    if step.eventId in p.events {
      OwnersApprovalIs(p, p.events[step.eventId], step.approver, step.outcome);
      CountGrows(Read(p.memory, k), step.outcome, step.eventId);
    }
  }

  lemma OthersKeepRecords(cfg: Config, w: World, step: Step, k: Scope)
    requires LegalStep(cfg, w, step) && !step.DoSubmit? && !step.DoIncident?
    ensures Read(Perform(cfg, w, step).plane.memory, k) == Read(w.plane.memory, k)
  {
    if step.DoPropose? { Ceilings.ProposeAgents(cfg, w.plane, step.event, step.around); }
  }

  lemma IncidentGrows(p: Plane, at: Scope, reason: string, k: Scope)
    ensures Grown(Read(p.memory, k), Read(Incident(p, at, reason).memory, k), multiset{}, if at == k then 1 else 0)
  {}

  lemma StepGrows(cfg: Config, w: World, step: Step, k: Scope)
    requires LegalStep(cfg, w, step)
    ensures Grown(Read(w.plane.memory, k), Read(Perform(cfg, w, step).plane.memory, k),
                  CountedBy(w.plane, step, k), if step.DoIncident? && step.scope == k then 1 else 0)
  {
    if step.DoSubmit? {
      SubmitGrows(w.plane, step, k);
    } else if step.DoIncident? {
      IncidentGrows(w.plane, step.scope, step.reason, k);
    } else {
      OthersKeepRecords(cfg, w, step, k);
    }
  }

  lemma GrownTwice(s: Stats, s1: Stats, s2: Stats, c1: multiset<Outcome>, c2: multiset<Outcome>, i1: nat, i2: nat)
    requires Grown(s, s1, c1, i1) && Grown(s1, s2, c2, i2)
    ensures Grown(s, s2, c1 + c2, i1 + i2)
  {}

  /** The record of a scope is the histogram of what was decided on it: after any run each counter has
      grown by the counted outcomes of its kind, and the incidents by the incidents recorded for the
      scope; nothing else moves them. */
  lemma {:induction false} CountersAreHistogram(cfg: Config, w: World, steps: seq<Step>, k: Scope)
    requires LegalRun(cfg, w, steps)
    ensures Grown(Read(w.plane.memory, k), Read(RunOf(cfg, w, steps).plane.memory, k),
                  CountedIn(cfg, w, steps, k), IncidentsIn(steps, k))
    decreases |steps|
  {
    if steps != [] {
      var w1 := Perform(cfg, w, steps[0]);
      StepGrows(cfg, w, steps[0], k);
      CountersAreHistogram(cfg, w1, steps[1..], k);
      GrownTwice(Read(w.plane.memory, k), Read(w1.plane.memory, k), Read(RunOf(cfg, w1, steps[1..]).plane.memory, k),
                 CountedBy(w.plane, steps[0], k), CountedIn(cfg, w1, steps[1..], k),
                 if steps[0].DoIncident? && steps[0].scope == k then 1 else 0, IncidentsIn(steps[1..], k));
    }
  }

  /** Clean approvals never exceed decisions, so the Wilson radicand is never negative and the bound
      always has a square root to take. */
  lemma RadicandNeverNegative(s: Stats)
    ensures s.clean <= s.Total()
    ensures s.Total() > 0 ==> Wilson.Radicand(s.clean, s.Total()) > 0.0
  {
    if s.Total() > 0 { Wilson.RadicandPositive(s.clean, s.Total()); }
  }
}
