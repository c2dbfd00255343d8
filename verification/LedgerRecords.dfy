/** The signed hash chain (earned_autonomy/core/ledger.py): what a verifying chain fixes. */
module LedgerRecords {
  import opened Options
  import opened JsonValues
  import opened CanonicalProperties
  import opened Signing
  import opened Tokens
  import Canonical
  import Utf8

  datatype Record = Record(
    eventType: string,
    payload: DictFields,
    actorId: Option<string>,
    recordId: string,
    timestamp: string,
    sequence: int,
    previousHash: Option<string>,
    recordHash: Option<string>,
    signature: Option<Signature>)

  /** What an append is given; id and timestamp are fresh values. */
  datatype Entry = Entry(eventType: string, payload: DictFields, actorId: Option<string>, recordId: string, timestamp: string)

  /** The record as a dict, hash and signature nulled. */
  function HashedFields(r: Record): seq<Field> {
    [Field("event_type", Str(r.eventType)), Field("payload", Obj(r.payload)),
     Field("actor_id", OptionalText(r.actorId)), Field("record_id", Str(r.recordId)),
     Field("timestamp", Str(r.timestamp)), Field("sequence", Num(r.sequence)),
     Field("previous_hash", OptionalText(r.previousHash)), Field("record_hash", Null), Field("signature", Null)]
  }

  function HashRecord(hash: Bytes -> string, r: Record): string {
    hash(CanonicalBytes(Obj(HashedFields(r))))
  }

  /** The dict has the record's values under their names, hash and signature nulled. */
  ghost predicate HoldsRecord(d: seq<Field>, r: Record) {
    && Lookup(d, "event_type") == Some(Str(r.eventType)) && Lookup(d, "payload") == Some(Obj(r.payload))
    && Lookup(d, "actor_id") == Some(OptionalText(r.actorId)) && Lookup(d, "record_id") == Some(Str(r.recordId))
    && Lookup(d, "timestamp") == Some(Str(r.timestamp)) && Lookup(d, "sequence") == Some(Num(r.sequence))
    && Lookup(d, "previous_hash") == Some(OptionalText(r.previousHash))
    && Lookup(d, "record_hash") == Some(Null) && Lookup(d, "signature") == Some(Null)
  }

  /** Equal records apart from hash and signature, payloads up to key order. */
  predicate SameContent(r: Record, u: Record) {
    && r.(payload := [], recordHash := None, signature := None) == u.(payload := [], recordHash := None, signature := None)
    && Same(Obj(r.payload), Obj(u.payload))
  }

  const RECORD_KEYS: seq<string> := [
    "event_type", "payload", "actor_id", "record_id", "timestamp", "sequence", "previous_hash", "record_hash", "signature"]

  lemma RecordKeysDistinct()
    ensures forall i, j :: 0 <= i < j < |RECORD_KEYS| ==> RECORD_KEYS[i] != RECORD_KEYS[j]
  {
    var k := RECORD_KEYS;
    assert |k[0]| == 10 && |k[1]| == 7 && |k[2]| == 8 && |k[3]| == 9 && |k[4]| == 9 && |k[5]| == 8;
    assert |k[6]| == 13 && |k[7]| == 11 && |k[8]| == 9;
    assert k[2][0] == 'a' && k[3][0] == 'r' && k[4][0] == 't' && k[5][0] == 's' && k[8][0] == 's';
  }

  lemma FieldsWellFormed(r: Record)
    ensures WellFormed(Obj(HashedFields(r)))
  {
    RecordKeysDistinct();
    var f := HashedFields(r);
    forall i | 0 <= i < |f| ensures f[i].key == RECORD_KEYS[i] && WellFormed(f[i].value) {}
  }

  ghost predicate ValuesAgree(r: Record, u: Record) {
    forall i :: 0 <= i < 9 ==> Same(HashedFields(r)[i].value, HashedFields(u)[i].value)
  }

  lemma ValuesAgreeOnContent(r: Record, u: Record)
    ensures ValuesAgree(r, u) <==> SameContent(r, u)
  {
    var f, g := HashedFields(r), HashedFields(u);
    if ValuesAgree(r, u) {
      assert Same(f[0].value, g[0].value) && Same(f[1].value, g[1].value) && Same(f[2].value, g[2].value);
      assert Same(f[3].value, g[3].value) && Same(f[4].value, g[4].value) && Same(f[5].value, g[5].value);
      assert Same(f[6].value, g[6].value);
    }
  }

  lemma FieldAt(r: Record, i: nat)
    requires i < 9
    ensures HashedFields(r)[i].key == RECORD_KEYS[i]
    ensures Lookup(HashedFields(r), RECORD_KEYS[i]) == Some(HashedFields(r)[i].value)
  {
    FieldsWellFormed(r);
    LookupAt(HashedFields(r), i);
  }

  /** What is hashed is the record's dict, and no other record's. */
  lemma HashedDictHolds(r: Record, u: Record)
    ensures HoldsRecord(HashedFields(r), u) <==> u.(recordHash := None, signature := None) == r.(recordHash := None, signature := None)
  {
    HashedDictHoldsOwn(r);
  }

  lemma HashedDictHoldsOwn(r: Record)
    ensures HoldsRecord(HashedFields(r), r)
  {
    forall i | 0 <= i < 9 ensures Lookup(HashedFields(r), RECORD_KEYS[i]) == Some(HashedFields(r)[i].value) {
      FieldAt(r, i);
    }
    assert RECORD_KEYS[0] == "event_type" && RECORD_KEYS[1] == "payload" && RECORD_KEYS[2] == "actor_id";
    assert RECORD_KEYS[3] == "record_id" && RECORD_KEYS[4] == "timestamp" && RECORD_KEYS[5] == "sequence";
    assert RECORD_KEYS[6] == "previous_hash" && RECORD_KEYS[7] == "record_hash" && RECORD_KEYS[8] == "signature";
  }

  lemma FieldsAgree(r: Record, u: Record)
    ensures Same(Obj(HashedFields(r)), Obj(HashedFields(u))) <==> ValuesAgree(r, u)
  {
    var f, g := HashedFields(r), HashedFields(u);
    forall i | 0 <= i < 9
      ensures Lookup(g, f[i].key) == Some(g[i].value) && Lookup(f, g[i].key) == Some(f[i].value)
    {
      FieldAt(r, i);
      FieldAt(u, i);
    }
    KeyedAlike(f, g);
  }

  lemma KeyedAlike(f: seq<Field>, g: seq<Field>)
    requires |f| == |g|
    requires forall i :: 0 <= i < |f| ==> Lookup(g, f[i].key) == Some(g[i].value) && Lookup(f, g[i].key) == Some(f[i].value)
    ensures Same(Obj(f), Obj(g)) <==> forall i :: 0 <= i < |f| ==> Same(f[i].value, g[i].value)
  {}

  /** Equal record hashes mean equal records, and signing or reordering payload keys never changes a
      hash. */
  lemma HashDeterminesRecord(hash: Bytes -> string, r: Record, u: Record)
    requires CollisionFree(hash)
    ensures HashRecord(hash, r) == HashRecord(hash, u) <==> SameContent(r, u)
  {
    FieldsWellFormed(r);
    FieldsWellFormed(u);
    CanonicalBytesDetermineValue(Obj(HashedFields(r)), Obj(HashedFields(u)));
    FieldsAgree(r, u);
    ValuesAgreeOnContent(r, u);
  }

  // ---------- the chain ----------

  function HeadHash(rs: seq<Record>): Option<string> {
    if rs == [] then None else rs[|rs| - 1].recordHash
  }

  function Text(h: string): Bytes {
    Utf8.Encode(h)
  }

  /** The hashed and signed record of an entry at a place in the chain. */
  function Sealed(hash: Bytes -> string, signKey: string, e: Entry, sequence: int, previousHash: Option<string>): Record {
    var draft := Record(e.eventType, e.payload, e.actorId, e.recordId, e.timestamp, sequence, previousHash, None, None);
    var h := HashRecord(hash, draft);
    draft.(recordHash := Some(h), signature := Some(Sign(signKey, Text(h))))
  }

  function NewRecord(hash: Bytes -> string, signKey: string, rs: seq<Record>, e: Entry): Record {
    Sealed(hash, signKey, e, |rs|, HeadHash(rs))
  }

  function Append(hash: Bytes -> string, signKey: string, rs: seq<Record>, e: Entry): seq<Record> {
    rs + [NewRecord(hash, signKey, rs, e)]
  }

  predicate RecordFits(hash: Bytes -> string, verifyKey: string, rs: seq<Record>, i: nat)
    requires i < |rs|
  {
    && rs[i].sequence == i
    && rs[i].previousHash == HeadHash(rs[..i])
    && rs[i].recordHash == Some(HashRecord(hash, rs[i]))
    && rs[i].signature.Some? && Verify(verifyKey, Text(rs[i].recordHash.value), rs[i].signature.value)
  }

  /** `verify`. */
  predicate Verifies(hash: Bytes -> string, verifyKey: string, rs: seq<Record>) {
    forall i :: 0 <= i < |rs| ==> RecordFits(hash, verifyKey, rs, i)
  }

  /** Hash and signature are not part of what is hashed. */
  lemma HashIgnoresSeal(hash: Bytes -> string, r: Record, h: Option<string>, s: Option<Signature>)
    ensures HashRecord(hash, r.(recordHash := h, signature := s)) == HashRecord(hash, r)
  {
    assert HashedFields(r.(recordHash := h, signature := s)) == HashedFields(r);
  }

  lemma FitsInPrefix(hash: Bytes -> string, key: string, rs: seq<Record>, n: nat, i: nat)
    requires i < n <= |rs|
    ensures RecordFits(hash, key, rs[..n], i) <==> RecordFits(hash, key, rs, i)
  {
    assert rs[..n][..i] == rs[..i];
  }

  /** An appended record fits exactly when the ledger's two keys belong together. */
  lemma NewRecordFits(hash: Bytes -> string, signKey: string, verifyKey: string, rs: seq<Record>, e: Entry)
    ensures RecordFits(hash, verifyKey, Append(hash, signKey, rs, e), |rs|) <==> signKey == verifyKey
  {
    var r := NewRecord(hash, signKey, rs, e);
    var rs' := Append(hash, signKey, rs, e);
    assert rs'[|rs|] == r && rs'[..|rs|] == rs;
    HashIgnoresSeal(hash, r.(recordHash := None, signature := None), r.recordHash, r.signature);
  }

  /** A ledger verifies after an append exactly when it did before and signs with the key it
      verifies with. */
  lemma AppendVerifies(hash: Bytes -> string, signKey: string, verifyKey: string, rs: seq<Record>, e: Entry)
    ensures Verifies(hash, verifyKey, Append(hash, signKey, rs, e)) <==> Verifies(hash, verifyKey, rs) && signKey == verifyKey
  {
    var rs' := Append(hash, signKey, rs, e);
    NewRecordFits(hash, signKey, verifyKey, rs, e);
    assert rs'[..|rs|] == rs;
    forall i | 0 <= i < |rs| ensures RecordFits(hash, verifyKey, rs', i) <==> RecordFits(hash, verifyKey, rs, i) {
      FitsInPrefix(hash, verifyKey, rs', |rs|, i);
    }
  }

  /** Every prefix of a verifying ledger verifies: cutting off the tail goes unnoticed. */
  lemma PrefixVerifies(hash: Bytes -> string, key: string, rs: seq<Record>, n: nat)
    requires Verifies(hash, key, rs) && n <= |rs|
    ensures Verifies(hash, key, rs[..n])
  {
    forall i | 0 <= i < n ensures RecordFits(hash, key, rs[..n], i) {
      assert RecordFits(hash, key, rs, i);
      FitsInPrefix(hash, key, rs, n, i);
    }
  }

  // ---------- appending many ----------

  /** What one ledger holds after appending the entries one after another. */
  function Replay(hash: Bytes -> string, signKey: string, base: seq<Record>, entries: seq<Entry>): (rs: seq<Record>)
    ensures |rs| == |base| + |entries| && rs[..|base|] == base
  {
    if entries == [] then base
    else
      var before := Replay(hash, signKey, base, entries[..|entries| - 1]);
      assert (before + [NewRecord(hash, signKey, before, entries[|entries| - 1])])[..|base|] == before[..|base|];
      Append(hash, signKey, before, entries[|entries| - 1])
  }

  lemma {:induction false} ReplayVerifies(hash: Bytes -> string, signKey: string, verifyKey: string, base: seq<Record>, entries: seq<Entry>)
    ensures Verifies(hash, verifyKey, Replay(hash, signKey, base, entries))
            <==> Verifies(hash, verifyKey, base) && (entries == [] || signKey == verifyKey)
    decreases |entries|
  {
    if entries != [] {
      var before := Replay(hash, signKey, base, entries[..|entries| - 1]);
      ReplayVerifies(hash, signKey, verifyKey, base, entries[..|entries| - 1]);
      AppendVerifies(hash, signKey, verifyKey, before, entries[|entries| - 1]);
    }
  }

  /** Each appended entry is in the chain once, at its place, with what it was given. */
  lemma {:induction false} ReplayHoldsEntries(hash: Bytes -> string, signKey: string, base: seq<Record>, entries: seq<Entry>, i: nat)
    requires i < |entries|
    ensures
      var r := Replay(hash, signKey, base, entries)[|base| + i];
      && Entry(r.eventType, r.payload, r.actorId, r.recordId, r.timestamp) == entries[i]
      && r.sequence == |base| + i
    decreases |entries|
  {
    if i < |entries| - 1 {
      ReplayHoldsEntries(hash, signKey, base, entries[..|entries| - 1], i);
    }
  }

  // ---------- the head determines the history ----------

  /** Position by position the same records, apart from signatures. */
  ghost predicate SameHistory(rs: seq<Record>, us: seq<Record>) {
    && |rs| == |us|
    && forall i :: 0 <= i < |rs| ==> SameContent(rs[i], us[i]) && rs[i].recordHash == us[i].recordHash
  }

  /** THE chain theorem: two ledgers that verify, under whatever keys, and share a head hash are the
      same history. */
  lemma {:induction false} HeadDeterminesHistory(hash: Bytes -> string, key: string, rs: seq<Record>, key': string, us: seq<Record>)
    requires CollisionFree(hash)
    requires Verifies(hash, key, rs) && Verifies(hash, key', us)
    ensures HeadHash(rs) == HeadHash(us) <==> SameHistory(rs, us)
    decreases |rs|
  {
    if HeadHash(rs) == HeadHash(us) {
      if rs != [] { assert RecordFits(hash, key, rs, |rs| - 1); }
      if us != [] { assert RecordFits(hash, key', us, |us| - 1); }
      if rs != [] && us != [] {
        var r, u := rs[|rs| - 1], us[|us| - 1];
        HashDeterminesRecord(hash, r, u);
        PrefixVerifies(hash, key, rs, |rs| - 1);
        PrefixVerifies(hash, key', us, |us| - 1);
        HeadDeterminesHistory(hash, key, rs[..|rs| - 1], key', us[..|us| - 1]);
        ExtendHistory(rs, us);
      }
    }
  }

  lemma ExtendHistory(rs: seq<Record>, us: seq<Record>)
    requires rs != [] && |rs| == |us| && SameHistory(rs[..|rs| - 1], us[..|us| - 1])
    requires SameContent(rs[|rs| - 1], us[|us| - 1]) && rs[|rs| - 1].recordHash == us[|us| - 1].recordHash
    ensures SameHistory(rs, us)
  {
    forall i | 0 <= i < |rs| ensures SameContent(rs[i], us[i]) && rs[i].recordHash == us[i].recordHash {
      if i < |rs| - 1 { assert rs[..|rs| - 1][i] == rs[i] && us[..|us| - 1][i] == us[i]; }
    }
  }

  // ---------- checkpoints ----------

  datatype Checkpoint = Checkpoint(sequence: int, headHash: Option<string>, count: nat, signature: Signature)

  function CheckpointFields(sequence: int, headHash: Option<string>, count: nat): seq<Field> {
    [Field("type", Str("ledger_checkpoint")), Field("sequence", Num(sequence)),
     Field("head_hash", OptionalText(headHash)), Field("count", Num(count))]
  }

  function CheckpointPayload(sequence: int, headHash: Option<string>, count: nat): Bytes {
    CanonicalBytes(Obj(CheckpointFields(sequence, headHash, count)))
  }

  function CheckpointOf(signKey: string, rs: seq<Record>): Checkpoint
    requires rs != []
  {
    var head := rs[|rs| - 1];
    Checkpoint(head.sequence, head.recordHash, |rs|, Sign(signKey, CheckpointPayload(head.sequence, head.recordHash, |rs|)))
  }

  /** A zero interval switches checkpoints off. */
  predicate CheckpointDue(every: int, count: nat) {
    every != 0 && count % every == 0
  }

  /** The checkpoint of the ledger when it had that many records. */
  ghost predicate Anchors(signKey: string, rs: seq<Record>, c: Checkpoint) {
    0 < c.count <= |rs| && c == CheckpointOf(signKey, rs[..c.count])
  }

  /** Appending keeps every anchored checkpoint an anchor, and anchors the new one. */
  lemma AppendKeepsAnchors(hash: Bytes -> string, signKey: string, rs: seq<Record>, e: Entry, anchored: seq<Checkpoint>)
    requires forall c :: c in anchored ==> Anchors(signKey, rs, c)
    ensures var rs' := Append(hash, signKey, rs, e);
            forall c :: c in anchored + [CheckpointOf(signKey, rs')] ==> Anchors(signKey, rs', c)
  {
    var rs' := Append(hash, signKey, rs, e);
    assert rs'[..|rs'|] == rs';
    forall c | c in anchored ensures Anchors(signKey, rs', c) {
      assert rs'[..c.count] == rs[..c.count];
    }
  }

  /** A checkpoint is for the ledger it summarizes, and its signature is over its own fields: it verifies
      for them exactly under the key it was made with. */
  lemma CheckpointSays(signKey: string, verifyKey: string, rs: seq<Record>)
    requires rs != []
    ensures var c := CheckpointOf(signKey, rs);
            && c.sequence == rs[|rs| - 1].sequence && c.headHash == HeadHash(rs) && c.count == |rs|
            && (CheckpointValid(verifyKey, c) <==> signKey == verifyKey)
  {}

  /** What a receiver can check of a checkpoint: the signature over its fields. */
  predicate CheckpointValid(key: string, c: Checkpoint) {
    Verify(key, CheckpointPayload(c.sequence, c.headHash, c.count), c.signature)
  }

  lemma CheckpointWellFormed(sequence: int, headHash: Option<string>, count: nat)
    ensures WellFormed(Obj(CheckpointFields(sequence, headHash, count)))
  {
    var f := CheckpointFields(sequence, headHash, count);
    assert |f[0].key| == 4 && |f[1].key| == 8 && |f[2].key| == 9 && |f[3].key| == 5;
  }

  /** The payload determines the three values it was made of. */
  lemma CheckpointPayloadDetermines(sequence: int, headHash: Option<string>, count: nat,
                                    sequence': int, headHash': Option<string>, count': nat)
    requires CheckpointPayload(sequence, headHash, count) == CheckpointPayload(sequence', headHash', count')
    ensures sequence == sequence' && headHash == headHash' && count == count'
  {
    var f, g := CheckpointFields(sequence, headHash, count), CheckpointFields(sequence', headHash', count');
    CheckpointWellFormed(sequence, headHash, count);
    CheckpointWellFormed(sequence', headHash', count');
    CanonicalBytesDetermineValue(Obj(f), Obj(g));
    forall i | 0 <= i < 4 ensures Same(f[i].value, g[i].value) {
      LookupAt(g, i);
      assert f[i].key == g[i].key;
    }
    assert Same(f[1].value, g[1].value) && Same(f[2].value, g[2].value) && Same(f[3].value, g[3].value);
  }

  /** No token is signed over the bytes of a checkpoint: its claims have no type. */
  lemma TokenIsNoCheckpoint(t: Token, sequence: int, headHash: Option<string>, count: nat)
    ensures SigningPayload(t) != CheckpointPayload(sequence, headHash, count)
  {
    var f, claims := CheckpointFields(sequence, headHash, count), Claims(t);
    CheckpointWellFormed(sequence, headHash, count);
    ClaimsWellFormed(t);
    CanonicalBytesDetermineValue(Obj(claims), Obj(f));
    ClaimsHaveNoType(t);
    assert f[0].key == "type";
  }

  lemma ClaimsHaveNoType(t: Token)
    ensures Lookup(Claims(t), "type").None?
  {
    var c := Claims(t);
    forall i | 0 <= i < |c| ensures c[i].key == CLAIM_KEYS[i] != "type" {
      NotAClaim(i);
    }
    LookupFinds(c, "type");
  }

  lemma NotAClaim(i: nat)
    requires i < |CLAIM_KEYS|
    ensures CLAIM_KEYS[i] != "type"
  {
    var k := CLAIM_KEYS;
    assert |k[0]| == 8 && |k[1]| == 8 && |k[2]| == 11 && |k[3]| == 15 && |k[4]| == 20 && |k[5]| == 10;
    assert |k[6]| == 9 && |k[7]| == 10 && |k[8]| == 5 && |k[9]| == 10 && |k[10]| == 6 && |k[11]| == 8;
  }

  // ---------- without the key ----------

  /** Digests are written in hex. Their length is left open: no function to texts of one length is
      free of collisions. */
  ghost predicate HexDigests(hash: Bytes -> string) {
    forall b :: hash(b) != [] && forall i :: 0 <= i < |hash(b)| ==> hash(b)[i] in "0123456789abcdef"
  }

  lemma FirstByte(s: string)
    requires s != [] && s[0] < (0x80 as char)
    ensures Utf8.Encode(s) != [] && Utf8.Encode(s)[0] as int == s[0] as int
  {}

  lemma ObjectFirstByte(fields: seq<Field>)
    ensures CanonicalBytes(Obj(fields)) != [] && CanonicalBytes(Obj(fields))[0] as int == '{' as int
  {
    assert Canonical.CanonicalText(Obj(fields))[0] == '{';
    FirstByte(Canonical.CanonicalText(Obj(fields)));
  }

  /** A digest is never a signing payload, so a signature made for a token or a checkpoint seals no
      record, even when all are made with one key. */
  lemma DigestIsNoObject(hash: Bytes -> string, b: Bytes, fields: seq<Field>)
    requires HexDigests(hash)
    ensures Text(hash(b)) != CanonicalBytes(Obj(fields))
  {
    assert hash(b)[0] in "0123456789abcdef";
    FirstByte(hash(b));
    ObjectFirstByte(fields);
  }

  /** The signatures the issuing key has made: over records of its ledger, over tokens, and over
      checkpoints. */
  ghost predicate KeyMade(key: string, ledger: seq<Record>, s: Option<Signature>) {
    || (exists j :: 0 <= j < |ledger| && ledger[j].signature == s)
    || (exists t: Token :: s == Some(Sign(key, SigningPayload(t))))
    || (exists sequence, head, count :: s == Some(Sign(key, CheckpointPayload(sequence, head, count))))
  }

  /** A record whose seal the key made is the ledger's own record at its place. */
  lemma SealedRecordIsOriginal(hash: Bytes -> string, key: string, ledger: seq<Record>, other: seq<Record>, i: nat)
    requires CollisionFree(hash) && HexDigests(hash)
    requires Verifies(hash, key, ledger) && Verifies(hash, key, other) && i < |other|
    requires KeyMade(key, ledger, other[i].signature)
    ensures i < |ledger| && SameContent(other[i], ledger[i]) && other[i].recordHash == ledger[i].recordHash
  {
    assert RecordFits(hash, key, other, i);
    var s := other[i].signature.value;
    var input := CanonicalBytes(Obj(HashedFields(other[i])));
    assert s == Sign(key, Text(hash(input)));
    forall t: Token ensures s != Sign(key, SigningPayload(t)) {
      DigestIsNoObject(hash, input, Claims(t));
    }
    forall sequence: int, head: Option<string>, count: nat ensures s != Sign(key, CheckpointPayload(sequence, head, count)) {
      DigestIsNoObject(hash, input, CheckpointFields(sequence, head, count));
    }
    var j :| 0 <= j < |ledger| && ledger[j].signature == Some(s);
    assert RecordFits(hash, key, ledger, j);
    Utf8.EncodeInjective(other[i].recordHash.value, ledger[j].recordHash.value);
    HashDeterminesRecord(hash, other[i], ledger[j]);
    assert i == j;
  }

  /** Without the key a verifying ledger can only be a prefix of the true one. */
  lemma WithoutKeyOnlyPrefixes(hash: Bytes -> string, key: string, ledger: seq<Record>, other: seq<Record>)
    requires CollisionFree(hash) && HexDigests(hash)
    requires Verifies(hash, key, ledger) && Verifies(hash, key, other)
    requires forall i :: 0 <= i < |other| ==> KeyMade(key, ledger, other[i].signature)
    ensures |other| <= |ledger| && SameHistory(other, ledger[..|other|])
  {
    forall i | 0 <= i < |other|
      ensures i < |ledger| && SameContent(other[i], ledger[i]) && other[i].recordHash == ledger[i].recordHash
    {
      SealedRecordIsOriginal(hash, key, ledger, other, i);
    }
    if other != [] { SealedRecordIsOriginal(hash, key, ledger, other, |other| - 1); }
  }

  // ---------- a checkpoint from outside ----------

  /** The signatures the ledger's key has made, with the checkpoints it emitted: over records of its
      ledger, over tokens, and over those checkpoints. */
  ghost predicate MadeSoFar(key: string, ledger: seq<Record>, emitted: seq<Checkpoint>, s: Signature) {
    || (exists j :: 0 <= j < |ledger| && ledger[j].signature == Some(s))
    || (exists t: Token :: s == Sign(key, SigningPayload(t)))
    || (exists c :: c in emitted && c.signature == s)
  }

  ghost predicate AllAnchor(key: string, ledger: seq<Record>, emitted: seq<Checkpoint>) {
    forall c :: c in emitted ==> Anchors(key, ledger, c)
  }

  /** A checkpoint that verifies with a signature the key has made is one of the emitted ones, field by
      field. */
  lemma ReceivedCheckpointWasEmitted(hash: Bytes -> string, key: string, ledger: seq<Record>, emitted: seq<Checkpoint>, c: Checkpoint)
    requires HexDigests(hash) && Verifies(hash, key, ledger) && AllAnchor(key, ledger, emitted)
    requires CheckpointValid(key, c) && MadeSoFar(key, ledger, emitted, c.signature)
    ensures c in emitted
  {
    var s := c.signature;
    forall j | 0 <= j < |ledger| ensures ledger[j].signature != Some(s) {
      assert RecordFits(hash, key, ledger, j);
      DigestIsNoObject(hash, CanonicalBytes(Obj(HashedFields(ledger[j]))), CheckpointFields(c.sequence, c.headHash, c.count));
    }
    forall t: Token ensures s != Sign(key, SigningPayload(t)) {
      TokenIsNoCheckpoint(t, c.sequence, c.headHash, c.count);
    }
    var d :| d in emitted && d.signature == s;
    assert Anchors(key, ledger, d);
    CheckpointPayloadDetermines(c.sequence, c.headHash, c.count, d.sequence, d.headHash, d.count);
  }

  /** A received checkpoint pins its prefix. Whoever holds a checkpoint that verifies with a signature
      the key has made, and nothing else of the original ledger, can tell of any verifying ledger
      whether it agrees with the original up to the checkpoint: it has the checkpoint's hash where the
      checkpoint counts exactly then. */
  lemma CheckpointPinsPrefix(hash: Bytes -> string, key: string, original: seq<Record>, emitted: seq<Checkpoint>, c: Checkpoint,
                             key': string, other: seq<Record>)
    requires CollisionFree(hash) && HexDigests(hash)
    requires Verifies(hash, key, original) && AllAnchor(key, original, emitted) && Verifies(hash, key', other)
    requires CheckpointValid(key, c) && MadeSoFar(key, original, emitted, c.signature)
    ensures 0 < c.count <= |original| && c.sequence == c.count - 1 && c.headHash == original[c.count - 1].recordHash
    ensures c.count <= |other| && other[c.count - 1].recordHash == c.headHash <==>
            c.count <= |other| && SameHistory(other[..c.count], original[..c.count])
  {
    ReceivedCheckpointWasEmitted(hash, key, original, emitted, c);
    AnchorIsHead(hash, key, original, c);
    if c.count <= |other| { HashPinsPrefix(hash, key, original, key', other, c.count); }
  }

  lemma AnchorIsHead(hash: Bytes -> string, key: string, original: seq<Record>, c: Checkpoint)
    requires Verifies(hash, key, original) && Anchors(key, original, c)
    ensures 0 < c.count <= |original| && c.sequence == c.count - 1 && c.headHash == original[c.count - 1].recordHash
  {
    assert RecordFits(hash, key, original, c.count - 1);
  }

  lemma HashPinsPrefix(hash: Bytes -> string, key: string, original: seq<Record>, key': string, other: seq<Record>, n: nat)
    requires CollisionFree(hash) && Verifies(hash, key, original) && Verifies(hash, key', other)
    requires 0 < n <= |original| && n <= |other|
    ensures other[n - 1].recordHash == original[n - 1].recordHash <==> SameHistory(other[..n], original[..n])
  {
    PrefixVerifies(hash, key, original, n);
    PrefixVerifies(hash, key', other, n);
    HeadDeterminesHistory(hash, key', other[..n], key, original[..n]);
    assert other[..n][n - 1] == other[n - 1] && original[..n][n - 1] == original[n - 1];
  }

  // ---------- how often ----------

  /** The checkpoints emitted while a ledger grows to `rs` from nothing. */
  function CheckpointsOf(signKey: string, every: int, rs: seq<Record>): seq<Checkpoint> {
    if rs == [] then []
    else CheckpointsOf(signKey, every, rs[..|rs| - 1]) + if CheckpointDue(every, |rs|) then [CheckpointOf(signKey, rs)] else []
  }

  lemma {:induction false} CheckpointsAnchor(signKey: string, every: int, rs: seq<Record>)
    ensures AllAnchor(signKey, rs, CheckpointsOf(signKey, every, rs))
    decreases |rs|
  {
    if rs != [] {
      var before := rs[..|rs| - 1];
      CheckpointsAnchor(signKey, every, before);
      assert rs[..|rs|] == rs;
      forall c | c in CheckpointsOf(signKey, every, before) ensures Anchors(signKey, rs, c) {
        assert Anchors(signKey, before, c) && rs[..c.count] == before[..c.count];
      }
    }
  }

  /** While a ledger grows from nothing a checkpoint is emitted at every multiple of the interval, once,
      in ascending order, and nowhere else. */
  lemma {:induction false} CheckpointsRegular(signKey: string, every: int, rs: seq<Record>)
    requires every != 0
    ensures var cs := CheckpointsOf(signKey, every, rs);
            && (forall c :: c in cs ==> 0 < c.count <= |rs| && c.count % every == 0)
            && (forall n :: 0 < n <= |rs| && n % every == 0 ==> CheckpointOf(signKey, rs[..n]) in cs)
            && (forall i, j :: 0 <= i < j < |cs| ==> cs[i].count < cs[j].count)
    decreases |rs|
  {
    if rs != [] {
      var before := rs[..|rs| - 1];
      CheckpointsRegular(signKey, every, before);
      forall n | 0 < n <= |rs| && n % every == 0 ensures CheckpointOf(signKey, rs[..n]) in CheckpointsOf(signKey, every, rs) {
        if n < |rs| { assert before[..n] == rs[..n]; } else { assert rs[..n] == rs; }
      }
    }
  }
}
