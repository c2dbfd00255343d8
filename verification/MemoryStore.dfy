/** The in-memory store of agents, events, rules and nonces (earned_autonomy/storage/memory.py). */
module MemoryStores {
  import opened Options
  import opened Models
  import opened Conditions
  import opened Policy
  import opened Trust
  import opened Planes

  /** The first matching rule in insertion order, or the comparison that raises before it. */
  function FirstMatch(rules: map<string, Rule>, order: seq<string>, e: Event): Pick
    requires forall id :: id in order ==> id in rules
  {
    if order == [] then NoRule
    else match RuleMatches(rules[order[0]], e)
      case Yes => Picked(rules[order[0]])
      case Raises => PickRaises
      case No => FirstMatch(rules, order[1..], e)
  }

  /** What a lookup in insertion order finds is what any lookup may find. */
  lemma {:induction false} FirstMatchIsLegal(rules: map<string, Rule>, order: seq<string>, e: Event)
    requires forall id :: id in order ==> id in rules
    ensures match FirstMatch(rules, order, e)
            case NoRule => forall id :: id in order ==> RuleMatches(rules[id], e) == No
            case pick => LegalPick(rules, e, pick)
  {
    if order != [] {
      assert order[0] in order && order == [order[0]] + order[1..];
      FirstMatchIsLegal(rules, order[1..], e);
    }
  }

  /** The lookup answers by the first rule in insertion order that matches or cannot be compared. */
  lemma {:induction false} FirstMatchAt(rules: map<string, Rule>, order: seq<string>, e: Event, i: nat)
    requires forall id :: id in order ==> id in rules
    requires i < |order| && RuleMatches(rules[order[i]], e) != No
    requires forall j :: 0 <= j < i ==> RuleMatches(rules[order[j]], e) == No
    ensures FirstMatch(rules, order, e) == if RuleMatches(rules[order[i]], e) == Yes then Picked(rules[order[i]]) else PickRaises
  {
    if i > 0 {
      forall j | 0 <= j < i - 1 ensures RuleMatches(rules[order[1..][j]], e) == No {
        assert order[1..][j] == order[j + 1];
      }
      FirstMatchAt(rules, order[1..], e, i - 1);
    }
  }

  function RulesOf(rules: map<string, Rule>, order: seq<string>, k: Scope): seq<Rule>
    requires forall id :: id in order ==> id in rules
  {
    if order == [] then []
    else (if RuleScope(rules[order[0]]) == k then [rules[order[0]]] else []) + RulesOf(rules, order[1..], k)
  }

  lemma {:induction false} RulesOfHoldsScope(rules: map<string, Rule>, order: seq<string>, k: Scope)
    requires forall id :: id in order ==> id in rules
    ensures forall r :: r in RulesOf(rules, order, k) <==> RuleScope(r) == k && exists id :: id in order && rules[id] == r
  {
    if order != [] {
      RulesOfHoldsScope(rules, order[1..], k);
      assert order == [order[0]] + order[1..];
      forall r
        ensures r in RulesOf(rules, order, k) <==> RuleScope(r) == k && exists id :: id in order && rules[id] == r
      {
        if RuleScope(r) == k && r == rules[order[0]] { assert order[0] in order; }
      }
    }
  }

  lemma {:induction false} RulesOfAppend(rules: map<string, Rule>, a: seq<string>, id: string, k: Scope)
    requires id in rules && forall i :: i in a ==> i in rules
    ensures RulesOf(rules, a + [id], k) == RulesOf(rules, a, k) + (if RuleScope(rules[id]) == k then [rules[id]] else [])
  {
    if a == [] {
      assert a + [id] == [id];
    } else {
      assert (a + [id])[1..] == a[1..] + [id];
      RulesOfAppend(rules, a[1..], id, k);
    }
  }

  class InMemoryStore {
    var agents: map<string, Agent>
    var events: map<string, Event>
    var rules: map<string, Rule>
    var ruleOrder: seq<string>
    var nonces: set<(string, string)>

    /** Everything is filed under its own id; `ruleOrder` is the insertion order of `rules`. */
    ghost predicate Valid()
      reads this
    {
      && (forall id :: id in agents ==> agents[id].agentId == id)
      && (forall id :: id in rules ==> rules[id].ruleId == id)
      && Distinct(ruleOrder) && (forall id :: id in ruleOrder <==> id in rules)
    }

    constructor ()
      ensures Valid() && agents == map[] && events == map[] && rules == map[] && nonces == {}
    {
      agents, events, rules, ruleOrder, nonces := map[], map[], map[], [], {};
    }

    method AddAgent(a: Agent)
      requires Valid()
      modifies this`agents
      ensures Valid() && agents == old(agents)[a.agentId := a]
    {
      agents := agents[a.agentId := a];
    }

    method GetAgent(id: string) returns (a: Option<Agent>)
      ensures a == if id in agents then Some(agents[id]) else None
    {
      a := if id in agents then Some(agents[id]) else None;
    }

    method AddEvent(e: Event)
      modifies this`events
      ensures events == old(events)[e.eventId := e]
    {
      events := events[e.eventId := e];
    }

    method GetEvent(id: string) returns (e: Option<Event>)
      ensures e == if id in events then Some(events[id]) else None
    {
      e := if id in events then Some(events[id]) else None;
    }

    /** A rule stored again keeps its place. */
    method AddRule(r: Rule)
      requires Valid()
      modifies this`rules, this`ruleOrder
      ensures Valid() && rules == old(rules)[r.ruleId := r]
      ensures ruleOrder == if r.ruleId in old(rules) then old(ruleOrder) else old(ruleOrder) + [r.ruleId]
    {
      if r.ruleId !in rules {
        ruleOrder := ruleOrder + [r.ruleId];
      }
      rules := rules[r.ruleId := r];
    }

    method GetRule(id: string) returns (r: Option<Rule>)
      ensures r == if id in rules then Some(rules[id]) else None
    {
      r := if id in rules then Some(rules[id]) else None;
    }

    method MatchingRule(e: Event) returns (pick: Pick)
      requires Valid()
      ensures pick == FirstMatch(rules, ruleOrder, e) && LegalPick(rules, e, pick)
    {
      FirstMatchIsLegal(rules, ruleOrder, e);
      assert ruleOrder[0..] == ruleOrder;
      for i := 0 to |ruleOrder|
        invariant FirstMatch(rules, ruleOrder, e) == FirstMatch(rules, ruleOrder[i..], e)
      {
        assert ruleOrder[i] in ruleOrder && ruleOrder[i..][1..] == ruleOrder[i + 1..];
        var rule := rules[ruleOrder[i]];
        match RuleMatches(rule, e) {
          case Yes => return Picked(rule);
          case Raises => return PickRaises;
          case No =>
        }
      }
      return NoRule;
    }

    method RulesFor(k: Scope) returns (found: seq<Rule>)
      requires Valid()
      ensures found == RulesOf(rules, ruleOrder, k)
      ensures forall i :: 0 <= i < |found| ==>
                RuleScope(found[i]) == k && found[i].ruleId in rules && rules[found[i].ruleId] == found[i]
      ensures forall id :: id in rules && RuleScope(rules[id]) == k ==> rules[id] in found
    {
      found := [];
      for i := 0 to |ruleOrder|
        invariant found == RulesOf(rules, ruleOrder[..i], k)
      {
        assert ruleOrder[i] in ruleOrder && ruleOrder[..i + 1] == ruleOrder[..i] + [ruleOrder[i]];
        RulesOfAppend(rules, ruleOrder[..i], ruleOrder[i], k);
        var rule := rules[ruleOrder[i]];
        if rule.agentId == k.agentId && rule.workflowId == k.workflowId && rule.authority == k.authority {
          found := found + [rule];
        }
      }
      assert ruleOrder[..|ruleOrder|] == ruleOrder;
      RulesOfHoldsScope(rules, ruleOrder, k);
    }

    /** Check and set in one step: exactly one claim of a nonce succeeds. */
    method ClaimNonce(agentId: string, nonce: string) returns (claimed: bool)
      modifies this`nonces
      ensures claimed <==> (agentId, nonce) !in old(nonces)
      ensures nonces == old(nonces) + {(agentId, nonce)}
    {
      if (agentId, nonce) in nonces {
        return false;
      }
      nonces := nonces + {(agentId, nonce)};
      return true;
    }
  }
}
