/** What the policy engine decides: rung by rung, guard by guard, boundary by boundary. */
module PolicyProperties {
  import opened Options
  import opened JsonValues
  import opened JsonLaws
  import opened Ontology
  import opened Models
  import opened Conditions
  import opened Policy

  // ---------- rungs ----------

  /** No guard of a rule that raises the level stops the event. */
  ghost predicate GuardsClear(e: Event, level: Level, rule: Option<Rule>) {
    rule.Some? && level < rule.value.level ==>
      forall n :: n in rule.value.requiresApprovalIf ==> n in GUARDS && Fires(n, e) == No
  }

  predicate Anomalous(e: Event) {
    "anomaly" in e.metadata && e.metadata["anomaly"] == Bool(true)
  }

  /** The event asks for nothing but looking and drafting. */
  predicate OnlyLooks(e: Event) {
    ConsequenceRank(e.authority) <= 1 && e.authority != CommunicateInternally && !e.requiresExecution
  }

  /** The rung in use: the higher of stored and rule level, at most the ceiling. */
  function Rung(e: Event, level: Level, rule: Option<Rule>): nat {
    var best := if rule.Some? && level < rule.value.level then rule.value.level else level;
    if best < Ceiling(e.authority) then best else Ceiling(e.authority)
  }

  /** What a rung means. Below 3 only execution needs approval, at 3 everything does; 4 is a sampled
      grant at the rule's rate or 20%; from 5 on the event is allowed, at 6 and 7 unless it is anomalous,
      at 7 with at least 5% attested. */
  ghost predicate RungSays(rung: nat, e: Event, rule: Option<Rule>, status: AutonomyStatus, rate: real) {
    && (rung <= 2 ==> status == if e.requiresExecution then ApprovalRequired else Allowed)
    && (rung == 3 ==> status == ApprovalRequired)
    && (rung == 4 ==> status == SampleReview)
    && (rung == 5 ==> status == Allowed)
    && (rung >= 6 ==> status == if Anomalous(e) then Escalate else Allowed)
    && (rung == 4 && (rule.None? || rule.value.sampleRate == 0.0) ==> rate == 0.2)
    && (rung == 4 && rule.Some? && rule.value.sampleRate != 0.0 ==> rate == rule.value.sampleRate)
    && (rung == 7 && !Anomalous(e) ==>
          && rate >= 0.05 && (rule.Some? ==> rate >= rule.value.sampleRate)
          && (rate == 0.05 || (rule.Some? && rate == rule.value.sampleRate)))
    && (rung != 4 && (rung != 7 || Anomalous(e)) ==> rate == 0.0)
  }

  lemma RungMeans(e: Event, rung: Level, rule: Option<Rule>)
    ensures var s := StatusForLevel(e, rung, rule);
            if OnlyLooks(e) then s == (Allowed, 0.0) else RungSays(rung, e, rule, s.0, s.1)
  {
    NonStateByRank(e.authority);
  }

  /** Where no boundary matches and no guard stops, the rung decides; looking and drafting is always
      allowed. */
  lemma StatusByRung(bs: seq<BoundaryRule>, e: Event, level: Level, risk: RiskLevel, rule: Option<Rule>)
    requires FirstBoundary(bs, e).None? && GuardsClear(e, level, rule)
    ensures
      var r := Evaluate(bs, e, level, risk, rule);
      && r.Some?
      && r.value == Decision(r.value.status, risk,
                             if rule.Some? && level < rule.value.level then Some(rule.value.ruleName) else None,
                             None, r.value.sampleRate, Ceiling(e.authority), [])
      && (if OnlyLooks(e) then r.value.status == Allowed && r.value.sampleRate == 0.0
          else RungSays(Rung(e, level, rule), e, rule, r.value.status, r.value.sampleRate))
  {
    RungMeans(e, Rung(e, level, rule), rule);
    if rule.Some? { ClearMeansKnownAndQuiet(rule.value.requiresApprovalIf, e); }
  }

  /** Raising a stored level can take away what was granted: exactly when work that executes nothing
      was fine below level 3 and meets the approval rung, or when an anomaly meets the top two. */
  lemma RaisingTakesAway(bs: seq<BoundaryRule>, e: Event, low: Level, high: Level, risk: RiskLevel)
    requires FirstBoundary(bs, e).None? && low <= high
    ensures
      var before, after := Evaluate(bs, e, low, risk, None).value.status, Evaluate(bs, e, high, risk, None).value.status;
      var from, to := Rung(e, low, None), Rung(e, high, None);
      Grants(before) && !Grants(after) <==>
      && !OnlyLooks(e)
      && ((!e.requiresExecution && from <= 2) || from in {4, 5})
      && (to == 3 || (to >= 6 && Anomalous(e)))
  {
    StatusByRung(bs, e, low, risk, None);
    StatusByRung(bs, e, high, risk, None);
  }

  // ---------- guards ----------

  /** A guard of the event's own agent: what each name looks at. */
  lemma GuardMeanings(e: Event)
    ensures Fires("missing_source_evidence", e) == if |e.evidence| == 0 then Yes else No
    ensures Fires("low_confidence", e) == if e.confidence >= 0.7 then No else Yes
    ensures Fires("external_effect", e) == if Get(e.metadata, "external_effect") == Bool(true) then Yes else No
    ensures Fires("irreversible", e) == if Get(e.metadata, "irreversible") == Bool(true) then Yes else No
    ensures Fires("anomaly_detected", e) == if Anomalous(e) then Yes else No
    ensures Fires("policy_boundary_matched", e) == if Get(e.metadata, "_policy_boundary_matched") == Bool(true) then Yes else No
  {}

  /** The workflow guard on a list of workflow ids: it fires exactly when the list has entries and the
      event's workflow is not among them. */
  lemma KnownWorkflows(e: Event, approved: seq<string>)
    requires Get(e.metadata, "_approved_workflows") == Arr(seq(|approved|, i requires 0 <= i < |approved| => Str(approved[i])))
    ensures Fires("outside_known_workflow", e) == if approved == [] || e.workflowId in approved then No else Yes
  {
    var items := Get(e.metadata, "_approved_workflows").items;
    assert forall i :: 0 <= i < |items| ==> (PyEq(Str(e.workflowId), items[i]) <==> e.workflowId == approved[i]);
    if approved == [] { assert items == []; }
  }

  /** The workflow guard on whatever else an event brings along: nothing and empty values leave it quiet,
      a dict is asked for the key, a text for the part, and a number that is not zero raises. */
  lemma OtherWorkflowLists(e: Event)
    ensures
      var approved := Get(e.metadata, "_approved_workflows");
      var fires := Fires("outside_known_workflow", e);
      match approved
      case Null => fires == No
      case Bool(b) => fires == if b then Raises else No
      case Num(n) => fires == if n == 0 then No else Raises
      case Str(s) => (fires == Yes <==> s != "" && !exists before, after :: s == before + e.workflowId + after) && fires != Raises
      case Obj(fields) => (fires == Yes <==> fields != [] && forall f :: f in fields ==> f.key != e.workflowId) && fires != Raises
      case Arr(items) => (fires == Yes <==> items != [] && Str(e.workflowId) !in items) && fires != Raises
  {
    match Get(e.metadata, "_approved_workflows")
    case Str(s) => SubstringMeans(e.workflowId, s);
    case Obj(fields) => LookupFinds(fields, e.workflowId);
    case Arr(items) => assert forall i :: 0 <= i < |items| ==> (PyEq(Str(e.workflowId), items[i]) <==> Str(e.workflowId) == items[i]);
    case _ =>
  }

  /** Guards are evaluated in order and separately: what fires for a list is what fires for its parts. */
  lemma {:induction false} TriggeredConcat(xs: seq<string>, ys: seq<string>, e: Event)
    ensures Triggered(xs + ys, e) ==
            if Triggered(xs, e).Some? && Triggered(ys, e).Some? then Some(Triggered(xs, e).value + Triggered(ys, e).value)
            else None
  {
    if xs == [] {
      assert xs + ys == ys;
      if Triggered(ys, e).Some? { assert Triggered(xs, e).value + Triggered(ys, e).value == Triggered(ys, e).value; }
    } else {
      assert (xs + ys)[0] == xs[0] && (xs + ys)[1..] == xs[1..] + ys;
      TriggeredConcat(xs[1..], ys, e);
      var head, rest, tail := [Label(xs[0])], Triggered(xs[1..], e), Triggered(ys, e);
      if rest.Some? && tail.Some? { assert head + (rest.value + tail.value) == (head + rest.value) + tail.value; }
    }
  }

  /** One guard: a known name reports itself when it fires, an unknown name always reports. */
  lemma TriggeredOne(name: string, e: Event)
    ensures name in GUARDS ==>
              Triggered([name], e) == match Fires(name, e) { case Raises => None case Yes => Some([name]) case No => Some([]) }
    ensures name !in GUARDS ==> Triggered([name], e) == Some([name + ":unknown_guard_fail_closed"])
  {
    KnownGuards(name, e);
    assert [name][1..] == [] && Triggered([], e) == Some([]);
    assert [Label(name)] + [] == [Label(name)];
  }

  /** A rule that raises the level and whose guards fire only asks for approval, and names them. */
  lemma GuardsStop(bs: seq<BoundaryRule>, e: Event, level: Level, risk: RiskLevel, rule: Rule)
    requires FirstBoundary(bs, e).None? && level < rule.level
    ensures
      var r := Evaluate(bs, e, level, risk, Some(rule));
      match Triggered(rule.requiresApprovalIf, e)
      case None => r == None
      case Some(fired) =>
        fired != [] ==> r == Some(Decision(ApprovalRequired, risk, Some(rule.ruleName), None, 0.0, Ceiling(e.authority), fired))
  {}

  // ---------- boundaries ----------

  /** The first boundary in order whose class and metadata fit decides, whatever level was stored and
      whatever a rule grants. */
  lemma {:induction false} BoundaryDecides(bs: seq<BoundaryRule>, i: nat, e: Event, level: Level, risk: RiskLevel, rule: Option<Rule>)
    requires i < |bs| && BoundaryMatches(bs[i], e) && forall j :: 0 <= j < i ==> !BoundaryMatches(bs[j], e)
    ensures Evaluate(bs, e, level, risk, rule) ==
            Some(Decision(bs[i].status, MaxRisk(risk, bs[i].risk), Some(bs[i].name), bs[i].approverRole, 0.0, Ceiling(e.authority), []))
  {
    if i > 0 {
      forall j | 0 <= j < i - 1 ensures !BoundaryMatches(bs[1..][j], e) {
        assert bs[1..][j] == bs[j + 1];
      }
      BoundaryDecides(bs[1..], i - 1, e, level, risk, rule);
    }
  }

  /** A boundary fits an event when it names its class, or none, and the event's metadata equals every
      value it lists. */
  lemma BoundaryFits(b: BoundaryRule, e: Event)
    ensures BoundaryMatches(b, e) <==>
            && (|b.authorityClasses| > 0 ==> e.authority in b.authorityClasses)
            && forall f :: f in b.metadataConditions ==> PyEq(Get(e.metadata, f.key), f.value)
  {
    forall i | 0 <= i < |b.metadataConditions| ensures b.metadataConditions[i] in b.metadataConditions {}
  }

  lemma MaxRiskIsMax(r1: RiskLevel, r2: RiskLevel)
    ensures MaxRisk(r1, r2) == MaxRisk(r2, r1)
    ensures MaxRisk(r1, r2) == Low <==> r1 == Low && r2 == Low
    ensures MaxRisk(r1, r2) in {Low, Medium} <==> r1 in {Low, Medium} && r2 in {Low, Medium}
    ensures MaxRisk(r1, r2) == Critical <==> r1 == Critical || r2 == Critical
  {}

  lemma DefaultsBefore(e: Event, j: nat)
    requires j < DefaultIndex(e.authority) && BaseRisk(e.authority) in {High, Critical}
    ensures !BoundaryMatches(DEFAULT_BOUNDARIES[j], e)
  {
    PlainBoundary(j, e);
  }

  /** Whose business a class is, by its consequences. */
  function RoleFor(cs: seq<ConsequenceClass>): string {
    if Legal in cs then "legal_admin"
    else if SecuritySensitive in cs then "security_admin"
    else if ProductionImpacting in cs then "system_admin"
    else if CustomerImpacting in cs then "commercial_owner"
    else "finance_admin"
  }

  lemma RoleByConsequences(a: AuthorityClass)
    requires BaseRisk(a) in {High, Critical}
    ensures DEFAULT_BOUNDARIES[DefaultIndex(a)].approverRole == Some(RoleFor(Consequences(a)))
  {
    var c := Consequences(a);
    assert c[0] in c && c[|c| - 1] in c;
    assert forall x :: x in c ==> x == c[0] || x == c[|c| - 1];
  }

  /** The default boundaries block what has legal consequences, escalate the rest of critical risk and
      spending, and ask for approval for the rest of high risk; who may decide goes by the
      consequences. */
  lemma DefaultDecision(e: Event, level: Level, risk: RiskLevel, rule: Option<Rule>)
    requires BaseRisk(e.authority) in {High, Critical}
    ensures
      var d := Evaluate(DEFAULT_BOUNDARIES, e, level, risk, rule);
      var critical := BaseRisk(e.authority) == Critical || e.authority == SpendMoney;
      && d.Some? && d.value.approverRole == Some(RoleFor(Consequences(e.authority))) && d.value.sampleRate == 0.0
      && d.value.status == (if Legal in Consequences(e.authority) then Blocked else if critical then Escalate else ApprovalRequired)
      && d.value.risk == (if critical then Critical else MaxRisk(risk, High))
  {
    DefaultDecides(e, level, risk, rule);
    DefaultStatus(e.authority);
    RoleByConsequences(e.authority);
    MaxRiskIsMax(risk, Critical);
  }

  lemma DefaultDecides(e: Event, level: Level, risk: RiskLevel, rule: Option<Rule>)
    requires BaseRisk(e.authority) in {High, Critical}
    ensures var b := DEFAULT_BOUNDARIES[DefaultIndex(e.authority)];
            Evaluate(DEFAULT_BOUNDARIES, e, level, risk, rule) ==
            Some(Decision(b.status, MaxRisk(risk, b.risk), Some(b.name), b.approverRole, 0.0, Ceiling(e.authority), []))
  {
    RiskyHasDefault(e);
    forall j | 0 <= j < DefaultIndex(e.authority) ensures !BoundaryMatches(DEFAULT_BOUNDARIES[j], e) {
      DefaultsBefore(e, j);
    }
    BoundaryDecides(DEFAULT_BOUNDARIES, DefaultIndex(e.authority), e, level, risk, rule);
  }

  lemma DefaultStatus(a: AuthorityClass)
    requires BaseRisk(a) in {High, Critical}
    ensures
      var b := DEFAULT_BOUNDARIES[DefaultIndex(a)];
      var critical := BaseRisk(a) == Critical || a == SpendMoney;
      && a in b.authorityClasses
      && b.status == (if Legal in Consequences(a) then Blocked else if critical then Escalate else ApprovalRequired)
      && b.risk == (if critical then Critical else High)
  {
    assert Legal in Consequences(a) <==> HardBlocked(a) by { LegalIsBlocked(a); }
  }
}
