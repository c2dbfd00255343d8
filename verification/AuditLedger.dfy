/** The audit ledger (earned_autonomy/core/ledger.py). */
module AuditLedgers {
  import opened Options
  import opened CanonicalProperties
  import opened Signing
  import opened L = LedgerRecords

  class AuditLedger {
    const hash: Bytes -> string
    const signKey: string
    const verifyKey: string
    const checkpointEvery: int
    var records: seq<Record>
    var anchored: seq<Checkpoint>
    ghost const base: seq<Record>
    ghost var entries: seq<Entry>

    constructor (hash: Bytes -> string, signKey: string, verifyKey: string, checkpointEvery: int, loaded: seq<Record>)
      ensures this.hash == hash && this.signKey == signKey && this.verifyKey == verifyKey
      ensures this.checkpointEvery == checkpointEvery && records == base == loaded && anchored == [] && entries == []
    {
      this.hash, this.signKey, this.verifyKey, this.checkpointEvery := hash, signKey, verifyKey, checkpointEvery;
      records, anchored, base, entries := loaded, [], loaded, [];
    }

    /** The record joins the chain; every `checkpointEvery` records a signed checkpoint is handed to
        the sink. */
    method Append(e: Entry) returns (record: Record)
      modifies this
      ensures records == L.Append(hash, signKey, old(records), e)
      ensures record == records[|records| - 1]
      ensures entries == old(entries) + [e]
      ensures old(records) == Replay(hash, signKey, base, old(entries)) ==> records == Replay(hash, signKey, base, entries)
      ensures anchored == old(anchored) +
                (if CheckpointDue(checkpointEvery, |records|) then [CheckpointOf(signKey, records)] else [])
      ensures old(anchored) == CheckpointsOf(signKey, checkpointEvery, old(records)) ==>
                anchored == CheckpointsOf(signKey, checkpointEvery, records)
    {
      var previousHash := HeadHash(records);
      var sequence := |records|;
      record := Record(e.eventType, e.payload, e.actorId, e.recordId, e.timestamp, sequence, previousHash, None, None);
      record := record.(recordHash := Some(HashRecord(hash, record)));
      record := record.(signature := Some(Sign(signKey, Text(record.recordHash.value))));
      records := records + [record];
      entries := entries + [e];
      assert entries[..|entries| - 1] == old(entries) && records[..|records| - 1] == old(records);
      if checkpointEvery != 0 && (sequence + 1) % checkpointEvery == 0 {
        EmitCheckpoint();
      }
    }

    /** The checkpoint handed out is for this ledger, and its signature is over its own fields. */
    method EmitCheckpoint()
      requires records != []
      modifies this`anchored
      ensures anchored == old(anchored) + [CheckpointOf(signKey, records)]
      ensures var c := anchored[|anchored| - 1];
              && c.count == |records| && c.headHash == HeadHash(records) && c.sequence == records[|records| - 1].sequence
              && Signing.Verify(signKey, CheckpointPayload(c.sequence, c.headHash, c.count), c.signature)
    {
      var head := records[|records| - 1];
      var signature := Sign(signKey, CheckpointPayload(head.sequence, head.recordHash, |records|));
      anchored := anchored + [Checkpoint(head.sequence, head.recordHash, |records|, signature)];
    }

    method Verify() returns (ok: bool)
      ensures ok <==> Verifies(hash, verifyKey, records)
    {
      var previousHash: Option<string> := None;
      for i := 0 to |records|
        invariant previousHash == HeadHash(records[..i])
        invariant forall j :: 0 <= j < i ==> RecordFits(hash, verifyKey, records, j)
      {
        var record := records[i];
        ghost var fits := RecordFits(hash, verifyKey, records, i);
        if record.sequence != i {
          return false;
        }
        if record.previousHash != previousHash {
          return false;
        }
        var expectedHash := HashRecord(hash, record);
        if record.recordHash != Some(expectedHash) {
          return false;
        }
        if record.signature == None || !Signing.Verify(verifyKey, Text(expectedHash), record.signature.value) {
          return false;
        }
        previousHash := record.recordHash;
      }
      return true;
    }
  }
}
