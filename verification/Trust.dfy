/** Trust statistics and the delegation memory (earned_autonomy/core/trust.py and the statistics
    record of earned_autonomy/core/models.py). */
module Trust {
  import opened Models

  datatype Outcome =
    | Approved | Rejected | ModifiedAndApproved | MoreEvidenceRequested | Escalated | ConvertedToDelegationRule

  datatype Stats = Stats(
    clean: nat, modified: nat, rejections: nat, escalations: nat, evidenceRequests: nat,
    incidents: nat, samplesReviewed: nat, decided: seq<string>)
  {
    function Total(): nat {
      clean + modified + rejections + escalations + evidenceRequests
    }

    function EditRate(): real {
      if Total() == 0 then 0.0 else modified as real / Total() as real
    }

    function RejectionRate(): real {
      if Total() == 0 then 0.0 else rejections as real / Total() as real
    }
  }

  const NO_TRUST := Stats(0, 0, 0, 0, 0, 0, 0, [])

  /** Only an approval without edits is a clean success. */
  predicate Clean(o: Outcome) {
    o.Approved? || o.ConvertedToDelegationRule?
  }

  function Count(s: Stats, o: Outcome): Stats {
    match o
    case Approved | ConvertedToDelegationRule => s.(clean := s.clean + 1)
    case ModifiedAndApproved => s.(modified := s.modified + 1)
    case Rejected => s.(rejections := s.rejections + 1)
    case Escalated => s.(escalations := s.escalations + 1)
    case MoreEvidenceRequested => s.(evidenceRequests := s.evidenceRequests + 1)
  }

  /** Trust is kept per agent, workflow and authority class. */
  type Memory = map<Scope, Stats>

  /** A key that was never touched reads as zero. */
  function Read(m: Memory, k: Scope): Stats {
    if k in m then m[k] else NO_TRUST
  }

  /** `get` records the default on first use. */
  function Touch(m: Memory, k: Scope): Memory {
    if k in m then m else m[k := NO_TRUST]
  }

  /** A decision counts once per event id under its key; a repeated one only touches the key. */
  function Apply(m: Memory, k: Scope, eventId: string, o: Outcome): Memory {
    var s := Read(m, k);
    if eventId in s.decided then Touch(m, k)
    else m[k := Count(s, o).(decided := s.decided + [eventId])]
  }

  function AddIncident(m: Memory, k: Scope): Memory {
    m[k := Read(m, k).(incidents := Read(m, k).incidents + 1)]
  }

  function AddSampleReview(m: Memory, k: Scope): Memory {
    m[k := Read(m, k).(samplesReviewed := Read(m, k).samplesReviewed + 1)]
  }

  ghost predicate Distinct<T>(s: seq<T>) {
    forall i, j :: 0 <= i < j < |s| ==> s[i] != s[j]
  }

  /** What every record satisfies: each decided event id is there once and counted once. */
  ghost predicate Honest(s: Stats) {
    Distinct(s.decided) && s.Total() == |s.decided|
  }

  ghost predicate HonestMemory(m: Memory) {
    forall k :: k in m ==> Honest(m[k])
  }

  /** Counting a new id keeps a record honest. */
  lemma CountKeepsHonest(s: Stats, eventId: string, o: Outcome)
    requires Honest(s) && eventId !in s.decided
    ensures Honest(Count(s, o).(decided := s.decided + [eventId]))
  {
    var d := s.decided + [eventId];
    forall i, j | 0 <= i < j < |d| ensures d[i] != d[j] {
      assert d[i] == s.decided[i];
    }
  }

  /** One decision keeps every record honest and moves only its own key. */
  lemma ApplyKeepsHonest(m: Memory, k: Scope, eventId: string, o: Outcome)
    requires HonestMemory(m)
    ensures HonestMemory(Apply(m, k, eventId, o))
    ensures forall k' :: k' != k ==> Read(Apply(m, k, eventId, o), k') == Read(m, k')
  {
    var m' := Apply(m, k, eventId, o);
    assert Honest(m'[k]) by {
      if eventId !in Read(m, k).decided { CountKeepsHonest(Read(m, k), eventId, o); }
    }
    forall k' | k' in m' && k' != k ensures Honest(m'[k']) {
      assert m'[k'] == m[k'];
    }
  }

  lemma CountsOne(s: Stats, eventId: string, o: Outcome)
    ensures
      var s' := Count(s, o).(decided := s.decided + [eventId]);
      && s'.Total() == s.Total() + 1 && s'.clean == s.clean + (if Clean(o) then 1 else 0)
      && eventId in s'.decided && s'.incidents == s.incidents
  {}

  lemma RepeatChangesNothing(m: Memory, k: Scope, eventId: string, o: Outcome)
    ensures Apply(Apply(m, k, eventId, o), k, eventId, o) == Apply(m, k, eventId, o)
  {
    var m' := Apply(m, k, eventId, o);
    assert k in m' && eventId in m'[k].decided;
  }

  /** A decision raises the total by exactly one when its id is new under the key and by nothing
      otherwise, is clean evidence only if it is clean, and submitting it again changes nothing. */
  lemma ApplyCountsOnce(m: Memory, k: Scope, eventId: string, o: Outcome)
    ensures
      var s := Read(m, k);
      var s' := Read(Apply(m, k, eventId, o), k);
      var step := if eventId in s.decided then 0 else 1;
      && s'.Total() == s.Total() + step
      && s'.clean == s.clean + (if Clean(o) then step else 0)
      && eventId in s'.decided
      && s'.incidents == s.incidents
    ensures Apply(Apply(m, k, eventId, o), k, eventId, o) == Apply(m, k, eventId, o)
  {
    var s := Read(m, k);
    if eventId !in s.decided { CountsOne(s, eventId, o); }
    RepeatChangesNothing(m, k, eventId, o);
  }

  /** Approval patterns by agent, workflow and authority class. */
  class DelegationMemory {
    var stats: Memory

    constructor ()
      ensures stats == map[]
    {
      stats := map[];
    }

    method Get(k: Scope) returns (s: Stats)
      modifies this
      ensures stats == Touch(old(stats), k)
      ensures s == Read(old(stats), k) && k in stats && stats[k] == s
    {
      if k !in stats {
        stats := stats[k := NO_TRUST];
      }
      s := stats[k];
    }

    /** `replay` is the source's ReplayError. */
    method ApplyDecision(k: Scope, eventId: string, outcome: Outcome) returns (replay: bool, s: Stats)
      modifies this
      ensures stats == Apply(old(stats), k, eventId, outcome)
      ensures replay <==> eventId in Read(old(stats), k).decided
      ensures s == Read(stats, k)
      ensures replay ==> s == Read(old(stats), k)
    {
      s := Get(k);
      if eventId in s.decided {
        return true, s;
      }
      s := s.(decided := s.decided + [eventId]);
      match outcome {
        case Approved => s := s.(clean := s.clean + 1);
        case ConvertedToDelegationRule => s := s.(clean := s.clean + 1);
        case ModifiedAndApproved => s := s.(modified := s.modified + 1);
        case Rejected => s := s.(rejections := s.rejections + 1);
        case Escalated => s := s.(escalations := s.escalations + 1);
        case MoreEvidenceRequested => s := s.(evidenceRequests := s.evidenceRequests + 1);
      }
      stats := stats[k := s];
      replay := false;
    }

    method RecordIncident(k: Scope) returns (s: Stats)
      modifies this
      ensures stats == AddIncident(old(stats), k) && s == Read(stats, k)
    {
      s := Get(k);
      s := s.(incidents := s.incidents + 1);
      stats := stats[k := s];
    }

    method RecordSampleReview(k: Scope) returns (s: Stats)
      modifies this
      ensures stats == AddSampleReview(old(stats), k) && s == Read(stats, k)
    {
      s := Get(k);
      s := s.(samplesReviewed := s.samplesReviewed + 1);
      stats := stats[k := s];
    }
  }
}
