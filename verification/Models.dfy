/** Agents, workflow events and delegation rules (earned_autonomy/core/models.py). */
module Models {
  import opened Options
  import opened JsonValues
  import opened CanonicalProperties
  import opened Ontology
  import opened Signing

  datatype Agent = Agent(
    agentId: string,
    ownerId: string,
    publicKey: Option<string>,
    approvedWorkflows: seq<string>,
    autonomy: map<string, Level>,
    incidentCount: nat,
    active: bool)
  {
    /** A class nobody raised sits at the bottom of the ladder. */
    function AutonomyFor(workflowId: string, authority: AuthorityClass): Level {
      var key := ScopeKey(workflowId, authority);
      if key in autonomy then autonomy[key] else OBSERVE_ONLY
    }

    function SetAutonomy(workflowId: string, authority: AuthorityClass, level: Level): Agent {
      this.(autonomy := autonomy[ScopeKey(workflowId, authority) := level])
    }
  }

  function ScopeKey(workflowId: string, authority: AuthorityClass): string {
    workflowId + ":" + Name(authority)
  }

  datatype Evidence = Evidence(source: string, claim: string)

  datatype Event = Event(
    agentId: string,
    humanOwnerId: string,
    workflowId: string,
    intent: string,
    authority: AuthorityClass,
    evidence: seq<Evidence>,
    confidence: real,
    requiresExecution: bool,
    nonce: string,
    signature: Option<Signature>,
    eventId: string,
    metadata: Dict)

  datatype Rule = Rule(
    ruleId: string,
    ruleName: string,
    workflowId: string,
    agentId: string,
    authority: AuthorityClass,
    level: Level,
    conditions: DictFields,
    requiresApprovalIf: seq<string>,
    sampleRate: real,
    active: bool,
    createdBy: Option<string>,
    revokedReason: Option<string>)

  /** Trust, rules and capabilities are all kept per agent, workflow and authority class. */
  datatype Scope = Scope(agentId: string, workflowId: string, authority: AuthorityClass)

  function ScopeOf(e: Event): Scope {
    Scope(e.agentId, e.workflowId, e.authority)
  }

  function RuleScope(r: Rule): Scope {
    Scope(r.agentId, r.workflowId, r.authority)
  }

  lemma NoColonWhenNonState(a: AuthorityClass)
    requires NonState(a)
    ensures ':' !in Name(a)
  {}

  lemma NoColonWhenCritical(a: AuthorityClass)
    requires BaseRisk(a) == Critical
    ensures ':' !in Name(a)
  {}

  lemma NoColonWhenHigh(a: AuthorityClass)
    requires BaseRisk(a) == High
    ensures ':' !in Name(a)
  {}

  lemma NoColonOtherwise(a: AuthorityClass)
    requires !NonState(a) && BaseRisk(a) in {Low, Medium}
    ensures ':' !in Name(a)
  {}

  lemma NoColonInName(a: AuthorityClass)
    ensures ':' !in Name(a)
  {
    if NonState(a) { NoColonWhenNonState(a); }
    else if BaseRisk(a) == Critical { NoColonWhenCritical(a); }
    else if BaseRisk(a) == High { NoColonWhenHigh(a); }
    else { NoColonOtherwise(a); }
  }

  /** Wire names are distinct. */
  lemma NamesDiffer(a: AuthorityClass, b: AuthorityClass)
    requires Name(a) == Name(b)
    ensures a == b
  {}

  /** The last colon of a scope key is the one between its parts. */
  lemma LastColon(w: string, a: AuthorityClass, i: nat)
    requires i < |ScopeKey(w, a)| && ScopeKey(w, a)[i] == ':'
    ensures i <= |w|
  {
    if i > |w| {
      assert Name(a)[i - |w| - 1] == ':';
      NoColonInName(a);
    }
  }

  /** The level table is keyed by one string per workflow and class, and no two pairs share it, even
      when workflow ids contain colons. */
  lemma ScopeKeysDiffer(w: string, a: AuthorityClass, w': string, a': AuthorityClass)
    requires ScopeKey(w, a) == ScopeKey(w', a')
    ensures w == w' && a == a'
  {
    var s := ScopeKey(w, a);
    assert s[|w|] == ':' && s[|w'|] == ':';
    LastColon(w, a, |w'|);
    LastColon(w', a', |w|);
    assert w == s[..|w|] && w' == s[..|w'|];
    assert Name(a) == s[|w| + 1..] && Name(a') == s[|w'| + 1..];
    NamesDiffer(a, a');
  }
}
