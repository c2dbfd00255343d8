/** What conditions and ranks ask of an action, in numbers, texts and members. */
module ConditionLaws {
  import opened Options
  import opened JsonValues
  import opened CanonicalProperties
  import opened Instants
  import opened JsonLaws
  import opened Models
  import opened Conditions
  import opened Policy
  import opened Tokens
  import opened TokenStates
  import opened Capabilities

  // ---------- one condition ----------

  /** A range with these bounds; a bound that is missing or None does not bind. */
  ghost predicate Bounds(range: seq<Field>, key: string, bound: Option<int>) {
    match bound
    case None => forall f :: f in range && f.key == key ==> f.value == Null
    case Some(n) => exists v :: Field(key, v) in range && Numbers(v) == Num(n)
  }

  lemma BoundValue(range: DictFields, key: string, bound: Option<int>)
    requires Bounds(range, key, bound)
    ensures if bound.Some? then Numbers(Bound(range, key)) == Num(bound.value) else Bound(range, key) == Null
  {
    LookupFinds(range, key);
    if bound.Some? {
      var v :| Field(key, v) in range && Numbers(v) == Num(bound.value);
      var i :| 0 <= i < |range| && range[i] == Field(key, v);
      LookupAt(range, i);
    }
  }

  predicate Inside(n: int, low: Option<int>, high: Option<int>) {
    (low.Some? ==> low.value <= n) && (high.Some? ==> n <= high.value)
  }

  /** A range with numbers for bounds. Without a bound everything passes; with one, an absent value
      fails, a number passes exactly when it is inside, and anything else cannot be compared. */
  lemma NumericRange(range: DictFields, low: Option<int>, high: Option<int>, actual: Json)
    requires Bounds(range, "min", low) && Bounds(range, "max", high)
    ensures low.None? && high.None? ==> CheckOne(Obj(range), actual) == Yes
    ensures low.Some? || high.Some? ==>
              && (actual == Null ==> CheckOne(Obj(range), actual) == No)
              && (forall n :: Numbers(actual) == Num(n) ==>
                    CheckOne(Obj(range), actual) == if Inside(n, low, high) then Yes else No)
              && (actual.Str? || actual.Arr? || actual.Obj? ==> CheckOne(Obj(range), actual) == Raises)
  {
    BoundValue(range, "min", low);
    BoundValue(range, "max", high);
  }

  /** A value meets a condition: within every bound of a range, among the members of a list, or equal to
      the value. */
  ghost predicate Meets(expected: Json, actual: Json) {
    match expected
    case Obj(range) =>
      forall f :: f in range && f.value != Null ==>
        (f.key == "min" ==> PyLess(actual, f.value) == Some(false)) && (f.key == "max" ==> PyLess(f.value, actual) == Some(false))
    case Arr(allowed) => exists v :: v in allowed && PyEq(actual, v)
    case _ => PyEq(actual, expected)
  }

  lemma BoundHolds(range: DictFields, key: string)
    ensures forall f :: f in range && f.key == key ==> f.value == Bound(range, key)
    ensures Bound(range, key) != Null ==> Field(key, Bound(range, key)) in range
  {
    LookupFinds(range, key);
    forall f | f in range && f.key == key ensures f.value == Bound(range, key) {
      var i :| 0 <= i < |range| && range[i] == f;
      LookupAt(range, i);
    }
  }

  /** A condition holds exactly when its value meets it. It raises only for a range, on a value that is
      there. */
  lemma CheckOneMeans(expected: Json, actual: Json)
    requires WellFormed(expected)
    ensures CheckOne(expected, actual) == Yes <==> Meets(expected, actual)
    ensures CheckOne(expected, actual) == Raises ==> expected.Obj? && actual != Null
  {
    match expected
    case Obj(range) =>
      BoundHolds(range, "min");
      BoundHolds(range, "max");
    case Arr(allowed) =>
      if v :| v in allowed && PyEq(actual, v) {
        var i :| 0 <= i < |allowed| && allowed[i] == v;
      }
    case _ =>
  }

  /** So a range with numbers for bounds is met exactly by the numbers inside it, or by anything when
      nothing binds. */
  lemma MeetsRange(range: DictFields, low: Option<int>, high: Option<int>, actual: Json)
    requires Bounds(range, "min", low) && Bounds(range, "max", high)
    ensures Meets(Obj(range), actual) <==>
            (low.None? && high.None?) || exists n :: Numbers(actual) == Num(n) && Inside(n, low, high)
  {
    NumericRange(range, low, high, actual);
    CheckOneMeans(Obj(range), actual);
    if Numeric(actual) { assert Numbers(actual) == Num(AsInt(actual)); }
  }

  /** A list is met exactly by its members, and a plain value by itself, True being 1 and key order
      being nothing. */
  lemma MeetsMember(expected: Json, actual: Json)
    requires WellFormed(expected) && WellFormed(actual) && !expected.Obj?
    ensures Meets(expected, actual) <==>
            if expected.Arr? then exists v :: v in expected.items && Same(Numbers(actual), Numbers(v))
            else Same(Numbers(actual), Numbers(expected))
  {
    if expected.Arr? {
      forall v | v in expected.items ensures PyEq(actual, v) <==> Same(Numbers(actual), Numbers(v)) {
        var i :| 0 <= i < |expected.items| && expected.items[i] == v;
        PyEqIsSame(actual, v);
      }
    } else {
      PyEqIsSame(actual, expected);
    }
  }

  // ---------- all conditions ----------

  ghost predicate MeetsAll(conditions: DictFields, context: Dict) {
    forall f :: f in conditions ==> Meets(f.value, Get(context, f.key))
  }

  lemma CheckAllMeans(conditions: DictFields, context: Dict)
    ensures CheckAll(conditions, context) == Yes <==> MeetsAll(conditions, context)
  {
    CheckAllMeansEach(conditions, context);
    forall f | f in conditions
      ensures CheckOne(f.value, Get(context, f.key)) == Yes <==> Meets(f.value, Get(context, f.key))
    {
      var i :| 0 <= i < |conditions| && conditions[i] == f;
      CheckOneMeans(f.value, Get(context, f.key));
    }
  }

  /** The first condition that does not hold decides between refusing and raising. */
  lemma {:induction false} FirstFailureDecides(conditions: seq<Field>, context: Dict, i: nat)
    requires i < |conditions| && CheckOne(conditions[i].value, Get(context, conditions[i].key)) != Yes
    requires forall j :: 0 <= j < i ==> CheckOne(conditions[j].value, Get(context, conditions[j].key)) == Yes
    ensures CheckAll(conditions, context) == CheckOne(conditions[i].value, Get(context, conditions[i].key))
  {
    if i > 0 {
      forall j | 0 <= j < i - 1 ensures CheckOne(conditions[1..][j].value, Get(context, conditions[1..][j].key)) == Yes {
        assert conditions[1..][j] == conditions[j + 1];
      }
      FirstFailureDecides(conditions[1..], context, i - 1);
    }
  }

  /** A rule matches an event exactly when it is active, in the event's scope, and the event's metadata
      meets every condition. */
  lemma RuleMatchesExactly(r: Rule, e: Event)
    ensures RuleMatches(r, e) == Yes <==> r.active && RuleScope(r) == ScopeOf(e) && MeetsAll(r.conditions, e.metadata)
    ensures RuleMatches(r, e) == Raises ==>
              r.active && RuleScope(r) == ScopeOf(e) && CheckAll(r.conditions, e.metadata) == Raises
  {
    CheckAllMeans(r.conditions, e.metadata);
  }

  // ---------- a verification ----------

  /** No declared rank, or a number that is at most the token's. */
  ghost predicate RankWithin(t: Token, context: Dict) {
    var rank := Get(context, "consequence_rank");
    rank == Null || exists n :: Numbers(rank) == Num(n) && n <= t.maxConsequenceRank
  }

  lemma RankCheckMeans(t: Token, context: Dict)
    ensures RankCheck(t, context) == Accepted <==> RankWithin(t, context)
    ensures RankCheck(t, context) == Refused(RankExceeded) <==>
            exists n :: Numbers(Get(context, "consequence_rank")) == Num(n) && t.maxConsequenceRank < n
    ensures RankCheck(t, context) in {Accepted, Refused(RankExceeded), Error}
  {
    var rank := Get(context, "consequence_rank");
    if Numeric(rank) { assert Numbers(rank) == Num(AsInt(rank)); }
  }

  ghost predicate Unexpired(t: Token, now: Instant) {
    FromIso(t.expiresAt).Some? && now < FromIso(t.expiresAt).value
  }

  /** THE verification theorem: an action is accepted exactly when the token is validly signed,
      unrevoked, unexpired and not used up, the action is in its scope, declares no higher rank, and its
      context meets every condition of the token. */
  lemma AcceptedExactly(issuer: Issuer, s: TokenStore, t: Token, action: Scope, context: Dict, now: Instant)
    ensures
      VerifyForAction(issuer, s, t, action, context, now).0 == Accepted <==>
      && SignatureValid(issuer, t) && !IsRevoked(s, t.tokenId) && Unexpired(t, now)
      && action == TokenScope(t) && RankWithin(t, context) && MeetsAll(t.conditions, context)
      && (t.singleUse ==> CanConsume(s, t.tokenId))
  {
    AcceptedMeansInScope(issuer, s, t, action, context, now);
    CheckAllMeansEach(t.conditions, context);
    CheckAllMeans(t.conditions, context);
    RankCheckMeans(t, context);
  }

  /** What each reason for a refusal says about the token and the action. */
  ghost predicate ReasonHolds(reason: Refusal, issuer: Issuer, s: TokenStore, t: Token, action: Scope, context: Dict, now: Instant) {
    match reason
    case InvalidSignature => !SignatureValid(issuer, t)
    case TokenRevoked => IsRevoked(s, t.tokenId)
    case MalformedExpiry => FromIso(t.expiresAt).None?
    case TokenExpired => FromIso(t.expiresAt).Some? && FromIso(t.expiresAt).value <= now
    case AgentMismatch => action.agentId != t.agentId
    case WorkflowMismatch => action.workflowId != t.workflowId
    case ClassMismatch => action.authority != t.authority
    case RankExceeded => exists n :: Numbers(Get(context, "consequence_rank")) == Num(n) && t.maxConsequenceRank < n
    case ConditionFailed => exists f :: f in t.conditions && !Meets(f.value, Get(context, f.key))
    case AlreadyConsumed => t.singleUse && !CanConsume(s, t.tokenId) && !IsRevoked(s, t.tokenId)
  }

  /** A refusal gives a true reason, and an error comes from a comparison that raised. */
  lemma RefusedForTheReason(issuer: Issuer, s: TokenStore, t: Token, action: Scope, context: Dict, now: Instant)
    ensures
      match VerifyForAction(issuer, s, t, action, context, now).0
      case Refused(reason) => ReasonHolds(reason, issuer, s, t, action, context, now)
      case Error => action == TokenScope(t) && !(RankWithin(t, context) && MeetsAll(t.conditions, context))
      case Accepted => true
  {
    CheckAllMeans(t.conditions, context);
    RankCheckMeans(t, context);
  }
}
