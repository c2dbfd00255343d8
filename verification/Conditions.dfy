/** Structured conditions and approval guards (earned_autonomy/core/conditions.py, the condition
    loops of DelegationRule.matches and CapabilityService.verify_for_action). Python raises a
    TypeError on some comparisons; `Raises` is that outcome. */
module Conditions {
  import opened Options
  import opened JsonValues
  import opened Models

  datatype Check = Yes | No | Raises

  /** An expected dict is a range, an expected list a set of allowed values, anything else a value. */
  function CheckOne(expected: Json, actual: Json): Check {
    match expected
    case Obj(range) =>
      var low := Bound(range, "min");
      var high := Bound(range, "max");
      var above := if low == Null then Yes else if actual == Null then No else Negate(PyLess(actual, low));
      if above != Yes then above
      else if high == Null then Yes else if actual == Null then No else Negate(PyLess(high, actual))
    case Arr(allowed) => if exists i :: 0 <= i < |allowed| && PyEq(actual, allowed[i]) then Yes else No
    case _ => if PyEq(actual, expected) then Yes else No
  }

  function Bound(range: seq<Field>, key: string): Json {
    match Lookup(range, key) case None => Null case Some(v) => v
  }

  function Negate(less: Option<bool>): Check {
    match less case None => Raises case Some(b) => if b then No else Yes
  }

  /** Conditions are checked in order; the first that does not hold decides. */
  function CheckAll(conditions: seq<Field>, context: Dict): Check {
    if conditions == [] then Yes else
      var first := CheckOne(conditions[0].value, Get(context, conditions[0].key));
      if first != Yes then first else CheckAll(conditions[1..], context)
  }

  /** All conditions together hold exactly when each of them does, in whatever order they are. */
  lemma {:induction false} CheckAllMeansEach(conditions: seq<Field>, context: Dict)
    ensures CheckAll(conditions, context) == Yes <==>
            forall f :: f in conditions ==> CheckOne(f.value, Get(context, f.key)) == Yes
  {
    if conditions != [] {
      CheckAllMeansEach(conditions[1..], context);
      assert conditions == [conditions[0]] + conditions[1..];
    }
  }

  /** Only the keys the conditions name are looked at. */
  lemma {:induction false} CheckAllReadsKeys(conditions: seq<Field>, c1: Dict, c2: Dict)
    requires forall f :: f in conditions ==> Get(c1, f.key) == Get(c2, f.key)
    ensures CheckAll(conditions, c1) == CheckAll(conditions, c2)
  {
    if conditions != [] {
      assert conditions[0] in conditions;
      forall f | f in conditions[1..] ensures Get(c1, f.key) == Get(c2, f.key) {
        assert f in conditions;
      }
      CheckAllReadsKeys(conditions[1..], c1, c2);
    }
  }

  /** The loop both callers run. */
  method CheckConditions(conditions: seq<Field>, context: Dict) returns (r: Check)
    ensures r == CheckAll(conditions, context)
  {
    for i := 0 to |conditions|
      invariant CheckAll(conditions, context) == CheckAll(conditions[i..], context)
    {
      var c := CheckOne(conditions[i].value, Get(context, conditions[i].key));
      if c != Yes {
        return c;
      }
    }
    return Yes;
  }

  // ---------- guards ----------

  const GUARDS: seq<string> := [
    "missing_source_evidence", "low_confidence", "outside_known_workflow", "external_effect",
    "irreversible", "anomaly_detected", "policy_boundary_matched"]

  const TRUE := Bool(true)

  /** `workflow_id in approved`; a number that is not zero is no container. */
  function Contains(approved: Json, workflowId: string): Check {
    match approved
    case Arr(items) => if exists i :: 0 <= i < |items| && PyEq(Str(workflowId), items[i]) then Yes else No
    case Obj(fields) => if Lookup(fields, workflowId).Some? then Yes else No
    case Str(s) => if Substring(workflowId, s) then Yes else No
    case _ => Raises
  }

  function OutsideKnownWorkflow(e: Event): Check {
    var approved := Get(e.metadata, "_approved_workflows");
    if !Truthy(approved) then No
    else match Contains(approved, e.workflowId) case Yes => No case No => Yes case Raises => Raises
  }

  function Flag(e: Event, key: string): Check {
    if Get(e.metadata, key) == TRUE then Yes else No
  }

  /** Whether a named guard fires. */
  function Fires(name: string, e: Event): Check {
    if name == "missing_source_evidence" then (if e.evidence == [] then Yes else No)
    else if name == "low_confidence" then (if e.confidence < 0.7 then Yes else No)
    else if name == "outside_known_workflow" then OutsideKnownWorkflow(e)
    else if name == "external_effect" then Flag(e, "external_effect")
    else if name == "irreversible" then Flag(e, "irreversible")
    else if name == "anomaly_detected" then Flag(e, "anomaly")
    else if name == "policy_boundary_matched" then Flag(e, "_policy_boundary_matched")
    else Yes
  }

  const UNKNOWN := ":unknown_guard_fail_closed"

  function Label(name: string): string {
    if name in GUARDS then name else name + UNKNOWN
  }

  /** The guards that fired, in order; None when evaluating one raises. */
  function Triggered(names: seq<string>, e: Event): Option<seq<string>> {
    if names == [] then Some([]) else
      match Fires(names[0], e)
      case Raises => None
      case fired =>
        match Triggered(names[1..], e)
        case None => None
        case Some(rest) => if fired == Yes then Some([Label(names[0])] + rest) else Some(rest)
  }

  /** Nothing fired exactly when every name is a known guard that is clear: unknown names fail
      closed. */
  lemma {:induction false} ClearMeansKnownAndQuiet(names: seq<string>, e: Event)
    ensures Triggered(names, e) == Some([]) <==>
            forall n :: n in names ==> n in GUARDS && Fires(n, e) == No
  {
    if names != [] {
      ClearMeansKnownAndQuiet(names[1..], e);
      assert names == [names[0]] + names[1..];
      KnownGuards(names[0], e);
    }
  }

  lemma KnownGuards(name: string, e: Event)
    ensures name !in GUARDS ==> Fires(name, e) == Yes
  {
    if name !in GUARDS {
      assert GUARDS[0] in GUARDS && GUARDS[1] in GUARDS && GUARDS[2] in GUARDS && GUARDS[3] in GUARDS;
      assert GUARDS[4] in GUARDS && GUARDS[5] in GUARDS && GUARDS[6] in GUARDS;
    }
  }

  /** `evaluate_guards`; `raised` is a TypeError out of a guard. */
  method EvaluateGuards(names: seq<string>, e: Event) returns (raised: bool, triggered: seq<string>)
    ensures raised <==> Triggered(names, e).None?
    ensures !raised ==> Triggered(names, e) == Some(triggered)
  {
    triggered := [];
    raised := false;
    assert names[0..] == names;
    assert forall rest: seq<string> :: [] + rest == rest;
    for i := 0 to |names|
      invariant Triggered(names, e).None? <==> Triggered(names[i..], e).None?
      invariant Triggered(names[i..], e).Some? ==>
                  Triggered(names, e) == Some(triggered + Triggered(names[i..], e).value)
    {
      assert names[i..][1..] == names[i + 1..];
      assert forall rest :: triggered + ([Label(names[i])] + rest) == (triggered + [Label(names[i])]) + rest;
      var c := Fires(names[i], e);
      if c == Raises {
        return true, triggered;
      }
      if c == Yes {
        triggered := triggered + [Label(names[i])];
      }
    }
    assert triggered + [] == triggered;
  }
}
