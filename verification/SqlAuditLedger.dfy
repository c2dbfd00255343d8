/** The shared audit ledger (earned_autonomy/core/ledger_sql.py), one transaction at a time. */
module SqlAuditLedgers {
  import opened Options
  import opened CanonicalProperties
  import opened Signing
  import opened L = LedgerRecords
  import opened LedgerTables
  import opened PrimaryKeys

  /** What `head` reports. */
  datatype ChainHead = ChainHead(sequence: int, headHash: Option<string>)

  class SqlAuditLedger {
    const hash: Bytes -> string
    const signKey: string
    const verifyKey: string
    var rows: Rows

    constructor (hash: Bytes -> string, signKey: string, verifyKey: string, table: Rows)
      ensures this.hash == hash && this.signKey == signKey && this.verifyKey == verifyKey && rows == table
    {
      this.hash, this.signKey, this.verifyKey, rows := hash, signKey, verifyKey, table;
    }

    method Records() returns (rs: seq<Record>)
      ensures rs == Listing(rows)
    {
      rs := [];
      var rest := rows;
      while rest != map[]
        invariant Listing(rows) == Listing(rest) + rs
        decreases |rest|
      {
        var k := SelectGreatest(rest.Keys);
        ListingStep(rest, rs);
        rs := [rest[k]] + rs;
        rest := rest - {k};
      }
    }

    method Append(e: Entry) returns (record: Record)
      requires Contiguous(rows)
      modifies this
      ensures Contiguous(rows)
      ensures Listing(rows) == L.Append(hash, signKey, old(Listing(rows)), e)
      ensures record == Listing(rows)[|Listing(rows)| - 1]
      ensures Verifies(hash, verifyKey, Listing(rows)) <==>
                Verifies(hash, verifyKey, old(Listing(rows))) && signKey == verifyKey
    {
      HeadOfListing(rows);
      var sequence, previousHash := 0, None;
      if rows != map[] {
        var k := SelectGreatest(rows.Keys);
        sequence, previousHash := k + 1, rows[k].recordHash;
      }
      record := Record(e.eventType, e.payload, e.actorId, e.recordId, e.timestamp, sequence, previousHash, None, None);
      record := record.(recordHash := Some(HashRecord(hash, record)));
      record := record.(signature := Some(Sign(signKey, Text(record.recordHash.value))));
      assert record == NewRecord(hash, signKey, Listing(rows), e);
      AppendVerifies(hash, signKey, verifyKey, Listing(rows), e);
      InsertLists(rows, record);
      rows := rows[sequence := record];
    }

    /** A table that verifies also has no gaps. */
    method Verify() returns (ok: bool)
      ensures ok <==> Verifies(hash, verifyKey, Listing(rows))
      ensures ok && Keyed(rows) ==> Contiguous(rows)
    {
      var records := Records();
      var previousHash: Option<string> := None;
      for i := 0 to |records|
        invariant previousHash == HeadHash(records[..i])
        invariant forall j :: 0 <= j < i ==> RecordFits(hash, verifyKey, records, j)
      {
        var record := records[i];
        ghost var fits := RecordFits(hash, verifyKey, records, i);
        if record.sequence != i {
          return false;
        }
        if record.previousHash != previousHash {
          return false;
        }
        if record.recordHash != Some(HashRecord(hash, record)) {
          return false;
        }
        if record.signature == None || !Signing.Verify(verifyKey, Text(record.recordHash.value), record.signature.value) {
          return false;
        }
        previousHash := record.recordHash;
      }
      ok := true;
      if Keyed(rows) { VerifiedIsContiguous(hash, verifyKey, rows); }
    }

    /** The last record of the listing, as its key and hash. */
    method Head() returns (head: Option<ChainHead>)
      ensures head == None <==> rows == map[]
      ensures rows != map[] ==>
                head == Some(ChainHead(Newest(rows), Listing(rows)[|rows| - 1].recordHash))
    {
      if rows == map[] {
        return None;
      }
      var k := SelectGreatest(rows.Keys);
      return Some(ChainHead(k, rows[k].recordHash));
    }
  }
}
