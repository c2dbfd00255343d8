/** Authority classes, risk, autonomy ceilings and consequence ranks
    (earned_autonomy/core/ontology.py and the enumerations of earned_autonomy/core/models.py). */
module Ontology {

  datatype AuthorityClass =
    | Observe | Search | Summarize | Classify | Score | Recommend | Draft
    | ModifyInternalRecord | ModifyExternalRecord
    | CommunicateInternally | CommunicateExternally | Schedule
    | CommitCommercialPosition | OfferPricingOrDiscount | ChangeLegalPosition
    | SpendMoney | TransferValue | GrantAccess | RevokeAccess
    | DeleteData | ModifyProductionSystem | BindOrganization | EscalateToHuman

  datatype ConsequenceClass =
    | Informational | InternalOnly | InternalRecordChange | ExternalFacing | CustomerImpacting
    | Financial | Legal | SecuritySensitive | ProductionImpacting | Irreversible | Reputational | Regulated

  datatype RiskLevel = Low | Medium | High | Critical

  datatype AutonomyStatus = Allowed | ApprovalRequired | SampleReview | Escalate | Blocked

  /** The eight rungs of the ladder. */
  type Level = n: nat | n <= 7

  const OBSERVE_ONLY: Level := 0
  const DRAFT: Level := 2
  const EXECUTE_WITH_APPROVAL: Level := 3
  const EXECUTE_WITH_SAMPLING: Level := 4
  const CONDITIONAL_AUTONOMY: Level := 5
  const EXCEPTION_BASED_SUPERVISION: Level := 6
  const DELEGATED_AUTHORITY: Level := 7

  /** The wire name of a class (the value of the enumeration member). */
  function Name(a: AuthorityClass): string {
    match a
    case Observe => "observe"
    case Search => "search"
    case Summarize => "summarize"
    case Classify => "classify"
    case Score => "score"
    case Recommend => "recommend"
    case Draft => "draft"
    case ModifyInternalRecord => "modify_internal_record"
    case ModifyExternalRecord => "modify_external_record"
    case CommunicateInternally => "communicate_internally"
    case CommunicateExternally => "communicate_externally"
    case Schedule => "schedule"
    case CommitCommercialPosition => "commit_commercial_position"
    case OfferPricingOrDiscount => "offer_pricing_or_discount"
    case ChangeLegalPosition => "change_legal_position"
    case SpendMoney => "spend_money"
    case TransferValue => "transfer_value"
    case GrantAccess => "grant_access"
    case RevokeAccess => "revoke_access"
    case DeleteData => "delete_data"
    case ModifyProductionSystem => "modify_production_system"
    case BindOrganization => "bind_organization"
    case EscalateToHuman => "escalate_to_human"
  }

  function Consequences(a: AuthorityClass): seq<ConsequenceClass> {
    match a
    case Observe | Search | Summarize | EscalateToHuman => [Informational]
    case Classify | Score | Recommend | Draft | CommunicateInternally => [InternalOnly]
    case ModifyInternalRecord | Schedule => [InternalRecordChange]
    case ModifyExternalRecord => [ExternalFacing]
    case CommunicateExternally => [ExternalFacing, Reputational]
    case CommitCommercialPosition => [CustomerImpacting, Financial]
    case OfferPricingOrDiscount => [Financial, CustomerImpacting]
    case ChangeLegalPosition => [Legal, Regulated]
    case SpendMoney => [Financial]
    case TransferValue => [Financial, Irreversible]
    case GrantAccess => [SecuritySensitive]
    case RevokeAccess => [SecuritySensitive, CustomerImpacting]
    case DeleteData => [Irreversible, ProductionImpacting]
    case ModifyProductionSystem => [ProductionImpacting]
    case BindOrganization => [Legal, Financial]
  }

  function BaseRisk(a: AuthorityClass): RiskLevel {
    match a
    case ModifyExternalRecord | CommunicateExternally => Medium
    case CommitCommercialPosition | OfferPricingOrDiscount | SpendMoney | GrantAccess | RevokeAccess => High
    case ChangeLegalPosition | TransferValue | DeleteData | ModifyProductionSystem | BindOrganization => Critical
    case _ => Low
  }

  function RiskOrder(r: RiskLevel): nat {
    match r case Low => 1 case Medium => 2 case High => 3 case Critical => 4
  }

  /** The later of two equal levels never wins, as with Python's `max`. */
  function MaxRisk(r1: RiskLevel, r2: RiskLevel): RiskLevel {
    if RiskOrder(r1) < RiskOrder(r2) then r2 else r1
  }

  function RankOf(c: ConsequenceClass): nat {
    match c
    case Informational => 0
    case InternalOnly => 1
    case InternalRecordChange => 2
    case ExternalFacing | Reputational => 3
    case CustomerImpacting => 4
    case SecuritySensitive | Financial | Regulated => 5
    case ProductionImpacting | Legal => 6
    case Irreversible => 7
  }

  function MaxRank(cs: seq<ConsequenceClass>): nat {
    if cs == [] then 0 else
      var rest := MaxRank(cs[1..]);
      if rest < RankOf(cs[0]) then RankOf(cs[0]) else rest
  }

  function ConsequenceRank(a: AuthorityClass): nat {
    MaxRank(Consequences(a))
  }

  function MaxAutonomy(r: RiskLevel): Level {
    match r
    case Low => DELEGATED_AUTHORITY
    case Medium => CONDITIONAL_AUTONOMY
    case High => EXECUTE_WITH_SAMPLING
    case Critical => EXECUTE_WITH_APPROVAL
  }

  predicate HardBlocked(a: AuthorityClass) {
    a == ChangeLegalPosition || a == BindOrganization
  }

  /** The highest level a class may ever reach. */
  function Ceiling(a: AuthorityClass): Level {
    if HardBlocked(a) then OBSERVE_ONLY else MaxAutonomy(BaseRisk(a))
  }

  predicate RequiresSeparationOfDuties(a: AuthorityClass) {
    a in {OfferPricingOrDiscount, SpendMoney, TransferValue, GrantAccess, RevokeAccess,
          DeleteData, ModifyProductionSystem}
  }

  predicate NonState(a: AuthorityClass) {
    a in {Observe, Search, Summarize, Classify, Score, Recommend, Draft, EscalateToHuman}
  }

  function MinLevel(x: Level, y: Level): Level {
    if y < x then y else x
  }

  function MaxLevel(x: Level, y: Level): Level {
    if x < y then y else x
  }

  /** A class can only be delegated for execution (level 4 or more) below critical risk. */
  lemma CeilingByRisk(a: AuthorityClass)
    ensures Ceiling(a) >= EXECUTE_WITH_SAMPLING <==> BaseRisk(a) != Critical
    ensures Ceiling(a) > EXECUTE_WITH_SAMPLING <==> BaseRisk(a) in {Low, Medium}
    ensures NonState(a) ==> BaseRisk(a) == Low
  {}

  // ---------- the tables agree ----------

  /** The ladder of consequences, without gaps. */
  lemma RankLadder()
    ensures RankOf(Informational) == 0 && RankOf(InternalOnly) == 1 && RankOf(InternalRecordChange) == 2
    ensures RankOf(ExternalFacing) == RankOf(Reputational) == 3 && RankOf(CustomerImpacting) == 4
    ensures RankOf(SecuritySensitive) == RankOf(Financial) == RankOf(Regulated) == 5
    ensures RankOf(ProductionImpacting) == RankOf(Legal) == 6 && RankOf(Irreversible) == 7
  {}

  /** The rank of a class is the highest rank among its consequences. */
  lemma {:induction false} MaxRankIsMax(cs: seq<ConsequenceClass>)
    ensures forall c :: c in cs ==> RankOf(c) <= MaxRank(cs)
    ensures cs != [] ==> exists c :: c in cs && RankOf(c) == MaxRank(cs)
  {
    if cs != [] {
      MaxRankIsMax(cs[1..]);
      assert cs == [cs[0]] + cs[1..];
      assert cs[0] in cs;
      if RankOf(cs[0]) <= MaxRank(cs[1..]) && cs[1..] != [] {
        var c :| c in cs[1..] && RankOf(c) == MaxRank(cs[1..]);
        assert c in cs;
      }
    }
  }

  /** The risk table and the consequence table, written down separately in the source, agree: base risk
      is a step function of the consequence rank. */
  lemma RiskByRank(a: AuthorityClass)
    ensures BaseRisk(a) == Low <==> ConsequenceRank(a) <= 2
    ensures BaseRisk(a) == Medium <==> ConsequenceRank(a) == 3
    ensures BaseRisk(a) == High <==> 4 <= ConsequenceRank(a) <= 5
    ensures BaseRisk(a) == Critical <==> 6 <= ConsequenceRank(a)
  {
    var c := Consequences(a);
    assert c[1..] == [] || c[1..] == [c[1]];
  }

  /** The highest level a class may reach, from its consequences alone. */
  function LevelForConsequences(cs: seq<ConsequenceClass>): Level {
    if Legal in cs then 0
    else if MaxRank(cs) <= 2 then 7
    else if MaxRank(cs) == 3 then 5
    else if MaxRank(cs) <= 5 then 4
    else 3
  }

  /** A class is hard blocked exactly when it has legal consequences. */
  lemma LegalIsBlocked(a: AuthorityClass)
    ensures Legal in Consequences(a) <==> HardBlocked(a)
  {
    var c := Consequences(a);
    if HardBlocked(a) { assert c[0] == Legal; }
  }

  /** The ceiling is a function of the consequences: 7 up to rank 2, 5 at rank 3, 4 at ranks 4 and 5, 3
      above, and 0 for legal consequences. */
  lemma CeilingByConsequences(a: AuthorityClass)
    ensures Ceiling(a) == LevelForConsequences(Consequences(a))
  {
    RiskByRank(a);
    LegalIsBlocked(a);
  }

  /** A second approver is asked for exactly from rank 4 on, short of legal consequences, which are
      blocked, and of commercial positions, which the source leaves out. */
  lemma DutiesByRank(a: AuthorityClass)
    ensures RequiresSeparationOfDuties(a) <==>
            ConsequenceRank(a) >= 4 && Legal !in Consequences(a) && a != CommitCommercialPosition
  {
    LegalIsBlocked(a);
    RiskByRank(a);
  }

  /** Looking and drafting is what changes nothing: rank 0 or 1, other than sending messages. */
  lemma NonStateByRank(a: AuthorityClass)
    ensures NonState(a) <==> ConsequenceRank(a) <= 1 && a != CommunicateInternally
  {}
}
