/** The shared ledger table and the replicas appending to it
    (earned_autonomy/core/ledger_sql.py): any interleaving of lock, read head, insert and commit
    leaves what one ledger would hold, appending in commit order. */
module LedgerTables {
  import opened Options
  import opened CanonicalProperties
  import opened LedgerRecords
  import opened PrimaryKeys

  // ---------- the table ----------

  /** Rows by their primary key. */
  type Rows = map<int, Record>

  /** The key column is the record's sequence. */
  ghost predicate Keyed(rows: Rows) {
    forall k :: k in rows ==> rows[k].sequence == k
  }

  ghost predicate Contiguous(rows: Rows) {
    forall k :: k in rows <==> 0 <= k < |rows|
  }

  /** `ORDER BY sequence DESC LIMIT 1`. */
  ghost function Newest(rows: Rows): (k: int)
    requires rows != map[]
    ensures IsGreatest(rows.Keys, k)
  {
    Greatest(rows.Keys)
  }

  /** `ORDER BY sequence ASC`. */
  ghost function Listing(rows: Rows): (rs: seq<Record>)
    ensures |rs| == |rows|
    decreases |rows|
  {
    if rows == map[] then [] else Listing(rows - {Newest(rows)}) + [rows[Newest(rows)]]
  }

  /** The newest row goes in front of what was already listed after it. */
  lemma ListingStep(rows: Rows, later: seq<Record>)
    requires rows != map[]
    ensures Listing(rows) + later == Listing(rows - {Newest(rows)}) + ([rows[Newest(rows)]] + later)
  {
    Associate(Listing(rows - {Newest(rows)}), [rows[Newest(rows)]], later);
  }

  lemma Associate(a: seq<Record>, b: seq<Record>, c: seq<Record>)
    ensures (a + b) + c == a + (b + c)
  {}

  lemma ContiguousNewest(rows: Rows)
    requires Contiguous(rows) && rows != map[]
    ensures Newest(rows) == |rows| - 1 && Contiguous(rows - {|rows| - 1})
  {
    assert |rows| - 1 in rows;
    var rest := rows - {|rows| - 1};
    assert |rest| == |rows| - 1;
  }

  /** A contiguous table lists row i at position i. */
  lemma {:induction false} ListingAt(rows: Rows, i: nat)
    requires Contiguous(rows) && i < |rows|
    ensures Listing(rows)[i] == rows[i]
    decreases |rows|
  {
    ContiguousNewest(rows);
    if i < |rows| - 1 { ListingAt(rows - {|rows| - 1}, i); }
  }

  /** A listing that verifies hides no gap: a row missing before the last one is noticed. */
  lemma {:induction false} VerifiedIsContiguous(hash: Bytes -> string, key: string, rows: Rows)
    requires Keyed(rows) && Verifies(hash, key, Listing(rows))
    ensures Contiguous(rows)
    decreases |rows|
  {
    if rows != map[] {
      var k := Newest(rows);
      var rest := rows - {k};
      assert Listing(rows)[..|rest|] == Listing(rest);
      PrefixVerifies(hash, key, Listing(rows), |rest|);
      VerifiedIsContiguous(hash, key, rest);
      assert RecordFits(hash, key, Listing(rows), |rest|);
      assert k == |rest| && |rows| == |rest| + 1;
      forall j ensures j in rows <==> 0 <= j < |rows| {
        assert j in rows <==> j == k || j in rest;
      }
    }
  }

  /** Inserting the next sequence lists the record last. */
  lemma InsertLists(rows: Rows, r: Record)
    requires Contiguous(rows)
    ensures var rows' := rows[|rows| := r];
            Contiguous(rows') && |rows'| == |rows| + 1 && Listing(rows') == Listing(rows) + [r]
  {
    var rows' := rows[|rows| := r];
    assert rows'.Keys == rows.Keys + {|rows|};
    assert rows' - {|rows|} == rows;
    ContiguousNewest(rows');
  }

  // ---------- replicas ----------

  /** Where a replica's append stands in its transaction. */
  datatype Tx =
    | Out
    | Waiting(e: Entry)
    | Locked(e: Entry)
    | HeadRead(e: Entry, sequence: int, previousHash: Option<string>)
    | Inserted(e: Entry, record: Record)

  /** Committed rows, the append lock, every replica's transaction, and the entries in the order their
      transactions committed. */
  datatype Db = Db(rows: Rows, lock: Option<nat>, txs: seq<Tx>, committed: seq<Entry>)

  datatype Move =
    | Begin(replica: nat, e: Entry)
    | TakeLock(replica: nat)
    | ReadHead(replica: nat)
    | Insert(replica: nat)
    | Commit(replica: nat)
    | Abort(replica: nat)

  predicate Holding(tx: Tx) {
    tx.Locked? || tx.HeadRead? || tx.Inserted?
  }

  /** The lock is granted to one transaction at a time. */
  predicate LegalMove(db: Db, m: Move) {
    m.replica < |db.txs| &&
    var tx := db.txs[m.replica];
    match m
    case Begin(_, _) => tx.Out?
    case TakeLock(_) => tx.Waiting? && db.lock == None
    case ReadHead(_) => tx.Locked?
    case Insert(_) => tx.HeadRead?
    case Commit(_) => tx.Inserted?
    case Abort(_) => !tx.Out?
  }

  ghost function Step(hash: Bytes -> string, signKey: string, db: Db, m: Move): Db
    requires LegalMove(db, m)
  {
    var r := m.replica;
    var tx := db.txs[r];
    match m
    case Begin(_, e) => db.(txs := db.txs[r := Waiting(e)])
    case TakeLock(_) => db.(txs := db.txs[r := Locked(tx.e)], lock := Some(r))
    case ReadHead(_) =>
      if db.rows == map[] then db.(txs := db.txs[r := HeadRead(tx.e, 0, None)])
      else db.(txs := db.txs[r := HeadRead(tx.e, Newest(db.rows) + 1, db.rows[Newest(db.rows)].recordHash)])
    case Insert(_) =>
      // the primary key refuses a sequence that is taken, and the transaction rolls back
      if tx.sequence in db.rows then db.(txs := db.txs[r := Out], lock := None)
      else db.(txs := db.txs[r := Inserted(tx.e, Sealed(hash, signKey, tx.e, tx.sequence, tx.previousHash))])
    case Commit(_) =>
      Db(db.rows[tx.record.sequence := tx.record], None, db.txs[r := Out], db.committed + [tx.e])
    case Abort(_) => db.(txs := db.txs[r := Out], lock := if Holding(tx) then None else db.lock)
  }

  ghost predicate LegalRun(hash: Bytes -> string, signKey: string, db: Db, moves: seq<Move>)
    decreases |moves|
  {
    moves == [] || (LegalMove(db, moves[0]) && LegalRun(hash, signKey, Step(hash, signKey, db, moves[0]), moves[1..]))
  }

  ghost function RunOf(hash: Bytes -> string, signKey: string, db: Db, moves: seq<Move>): Db
    requires LegalRun(hash, signKey, db, moves)
    decreases |moves|
  {
    if moves == [] then db else RunOf(hash, signKey, Step(hash, signKey, db, moves[0]), moves[1..])
  }

  // ---------- the invariant ----------

  /** What a transaction knows is still true of the table. */
  ghost predicate TxFits(hash: Bytes -> string, signKey: string, rows: Rows, tx: Tx) {
    match tx
    case HeadRead(_, sequence, previousHash) => sequence == |rows| && previousHash == HeadHash(Listing(rows))
    case Inserted(e, record) => record == NewRecord(hash, signKey, Listing(rows), e)
    case _ => true
  }

  ghost predicate Fits(hash: Bytes -> string, signKey: string, base: seq<Record>, db: Db) {
    && Contiguous(db.rows)
    && Listing(db.rows) == Replay(hash, signKey, base, db.committed)
    && (forall r :: 0 <= r < |db.txs| ==> (Holding(db.txs[r]) <==> db.lock == Some(r)))
    && (forall r :: 0 <= r < |db.txs| ==> TxFits(hash, signKey, db.rows, db.txs[r]))
  }

  lemma HeadOfListing(rows: Rows)
    requires Contiguous(rows)
    ensures rows == map[] ==> HeadHash(Listing(rows)) == None && |rows| == 0
    ensures rows != map[] ==>
              Newest(rows) + 1 == |rows| && HeadHash(Listing(rows)) == rows[Newest(rows)].recordHash
  {
    if rows != map[] { ContiguousNewest(rows); }
  }

  lemma CommitKeepsFits(hash: Bytes -> string, signKey: string, base: seq<Record>, db: Db, r: nat)
    requires Fits(hash, signKey, base, db) && LegalMove(db, Commit(r))
    ensures Fits(hash, signKey, base, Step(hash, signKey, db, Commit(r)))
  {
    var db' := Step(hash, signKey, db, Commit(r));
    var tx := db.txs[r];
    assert TxFits(hash, signKey, db.rows, tx) && Holding(tx);
    InsertLists(db.rows, tx.record);
    assert db'.committed[..|db'.committed| - 1] == db.committed;
    forall q | 0 <= q < |db'.txs|
      ensures !Holding(db'.txs[q]) && TxFits(hash, signKey, db'.rows, db'.txs[q])
    {
      if q != r { assert !Holding(db.txs[q]); }
    }
  }

  /** A move changes its own replica's transaction; the others fit as before while the rows and, for
      them, the lock stay. */
  lemma OthersStillFit(hash: Bytes -> string, signKey: string, base: seq<Record>, db: Db, db': Db, r: nat)
    requires Fits(hash, signKey, base, db) && r < |db.txs|
    requires db'.rows == db.rows && db'.committed == db.committed
    requires |db'.txs| == |db.txs| && forall q :: 0 <= q < |db.txs| && q != r ==> db'.txs[q] == db.txs[q]
    requires forall q :: 0 <= q < |db.txs| && q != r ==> (db'.lock == Some(q) <==> db.lock == Some(q))
    requires (Holding(db'.txs[r]) <==> db'.lock == Some(r)) && TxFits(hash, signKey, db'.rows, db'.txs[r])
    ensures Fits(hash, signKey, base, db')
  {
    forall q | 0 <= q < |db'.txs|
      ensures (Holding(db'.txs[q]) <==> db'.lock == Some(q)) && TxFits(hash, signKey, db'.rows, db'.txs[q])
    {
      if q != r { assert Holding(db.txs[q]) <==> db.lock == Some(q); }
    }
  }

  lemma ReadHeadKeepsFits(hash: Bytes -> string, signKey: string, base: seq<Record>, db: Db, r: nat)
    requires Fits(hash, signKey, base, db) && LegalMove(db, ReadHead(r))
    ensures Fits(hash, signKey, base, Step(hash, signKey, db, ReadHead(r)))
  {
    assert Holding(db.txs[r]);
    HeadOfListing(db.rows);
    OthersStillFit(hash, signKey, base, db, Step(hash, signKey, db, ReadHead(r)), r);
  }

  lemma InsertKeepsFits(hash: Bytes -> string, signKey: string, base: seq<Record>, db: Db, r: nat)
    requires Fits(hash, signKey, base, db) && LegalMove(db, Insert(r))
    ensures Fits(hash, signKey, base, Step(hash, signKey, db, Insert(r)))
  {
    assert Holding(db.txs[r]) && TxFits(hash, signKey, db.rows, db.txs[r]);
    OthersStillFit(hash, signKey, base, db, Step(hash, signKey, db, Insert(r)), r);
  }

  lemma AbortKeepsFits(hash: Bytes -> string, signKey: string, base: seq<Record>, db: Db, r: nat)
    requires Fits(hash, signKey, base, db) && LegalMove(db, Abort(r))
    ensures Fits(hash, signKey, base, Step(hash, signKey, db, Abort(r)))
  {
    assert Holding(db.txs[r]) <==> db.lock == Some(r);
    OthersStillFit(hash, signKey, base, db, Step(hash, signKey, db, Abort(r)), r);
  }

  /** Beginning and locking. */
  lemma QueueKeepsFits(hash: Bytes -> string, signKey: string, base: seq<Record>, db: Db, m: Move)
    requires Fits(hash, signKey, base, db) && LegalMove(db, m) && (m.Begin? || m.TakeLock?)
    ensures Fits(hash, signKey, base, Step(hash, signKey, db, m))
  {
    assert !Holding(db.txs[m.replica]);
    OthersStillFit(hash, signKey, base, db, Step(hash, signKey, db, m), m.replica);
  }

  lemma MoveKeepsFits(hash: Bytes -> string, signKey: string, base: seq<Record>, db: Db, m: Move)
    requires Fits(hash, signKey, base, db) && LegalMove(db, m)
    ensures Fits(hash, signKey, base, Step(hash, signKey, db, m))
  {
    match m
    case ReadHead(r) => ReadHeadKeepsFits(hash, signKey, base, db, r);
    case Insert(r) => InsertKeepsFits(hash, signKey, base, db, r);
    case Commit(r) => CommitKeepsFits(hash, signKey, base, db, r);
    case Abort(r) => AbortKeepsFits(hash, signKey, base, db, r);
    case _ => QueueKeepsFits(hash, signKey, base, db, m);
  }

  lemma {:induction false} RunKeepsFits(hash: Bytes -> string, signKey: string, base: seq<Record>, db: Db, moves: seq<Move>)
    requires Fits(hash, signKey, base, db) && LegalRun(hash, signKey, db, moves)
    ensures Fits(hash, signKey, base, RunOf(hash, signKey, db, moves))
    decreases |moves|
  {
    if moves != [] {
      MoveKeepsFits(hash, signKey, base, db, moves[0]);
      RunKeepsFits(hash, signKey, base, Step(hash, signKey, db, moves[0]), moves[1..]);
    }
  }

  // ---------- the theorem ----------

  /** Nobody has begun an append. */
  ghost predicate Quiescent(db: Db) {
    db.lock == None && db.committed == [] && forall r :: 0 <= r < |db.txs| ==> db.txs[r].Out?
  }

  /** THE shared-ledger theorem: however the replicas interleave, the table is contiguous, lists what
      one ledger would hold after appending the committed entries in commit order, and verifies if it
      did before. */
  lemma SharedLedgerIsLinear(hash: Bytes -> string, key: string, db: Db, moves: seq<Move>)
    requires Contiguous(db.rows) && Quiescent(db) && LegalRun(hash, key, db, moves)
    ensures
      var db' := RunOf(hash, key, db, moves);
      && Contiguous(db'.rows)
      && Listing(db'.rows) == Replay(hash, key, Listing(db.rows), db'.committed)
      && |db'.rows| == |db.rows| + |db'.committed|
      && (Verifies(hash, key, Listing(db'.rows)) <==> Verifies(hash, key, Listing(db.rows)))
  {
    var base := Listing(db.rows);
    RunKeepsFits(hash, key, base, db, moves);
    ReplayVerifies(hash, key, key, base, RunOf(hash, key, db, moves).committed);
  }

  /** The lock is what makes it so: an insert under the lock never meets a taken sequence. */
  lemma InsertNeverCollides(hash: Bytes -> string, key: string, db: Db, moves: seq<Move>, r: nat)
    requires Contiguous(db.rows) && Quiescent(db) && LegalRun(hash, key, db, moves)
    requires LegalMove(RunOf(hash, key, db, moves), Insert(r))
    ensures Step(hash, key, RunOf(hash, key, db, moves), Insert(r)).txs[r].Inserted?
  {
    RunKeepsFits(hash, key, Listing(db.rows), db, moves);
    var db' := RunOf(hash, key, db, moves);
    assert TxFits(hash, key, db'.rows, db'.txs[r]);
  }
}
