/** Shared state of capability tokens (earned_autonomy/core/capability_store.py): the state protocol
    over two representations, one on in-memory sets and one on table rows.

    Each operation is one atomic step: the in-memory store runs it under a lock, the SQL store as one
    statement. */
module TokenStates {
  import opened JsonValues
  import opened Models

  /** What is recorded about a token when it is issued; `expires` is the printed instant. */
  datatype Issued = Issued(scope: Scope, expires: string)

  datatype Row = Row(info: Issued, consumed: bool, revoked: bool)

  datatype TokenStore =
    | Memory(issued: map<string, Issued>, consumedIds: set<string>, revokedIds: set<string>)
    | Sql(rows: map<string, Row>)

  /** The ids the store has a record of. */
  function Recorded(s: TokenStore): set<string> {
    match s case Memory(issued, _, _) => issued.Keys case Sql(rows) => rows.Keys
  }

  function Info(s: TokenStore, id: string): Issued
    requires id in Recorded(s)
  {
    match s case Memory(issued, _, _) => issued[id] case Sql(rows) => rows[id].info
  }

  predicate IsConsumed(s: TokenStore, id: string) {
    match s
    case Memory(_, consumed, _) => id in consumed
    case Sql(rows) => id in rows && rows[id].consumed
  }

  predicate IsRevoked(s: TokenStore, id: string) {
    match s
    case Memory(_, _, revoked) => id in revoked
    case Sql(rows) => id in rows && rows[id].revoked
  }

  /** The SQL insert ignores an id it already has; the in-memory assignment overwrites its record. */
  function RecordIssued(s: TokenStore, id: string, info: Issued): TokenStore {
    match s
    case Memory(_, _, _) => s.(issued := s.issued[id := info])
    case Sql(rows) => if id in rows then s else Sql(rows[id := Row(info, false, false)])
  }

  /** Whether a consumption attempt succeeds. The in-memory store accepts ids it has no record of. */
  predicate CanConsume(s: TokenStore, id: string) {
    match s
    case Memory(_, consumed, revoked) => id !in consumed && id !in revoked
    case Sql(rows) => id in rows && !rows[id].consumed && !rows[id].revoked
  }

  function TryConsume(s: TokenStore, id: string): TokenStore {
    if !CanConsume(s, id) then s else
      match s
      case Memory(_, _, _) => s.(consumedIds := s.consumedIds + {id})
      case Sql(rows) => Sql(rows[id := rows[id].(consumed := true)])
  }

  function Revoke(s: TokenStore, id: string): TokenStore {
    match s
    case Memory(_, _, _) => s.(revokedIds := s.revokedIds + {id})
    case Sql(rows) => if id in rows then Sql(rows[id := rows[id].(revoked := true)]) else s
  }

  /** The recorded tokens of a scope that are neither consumed nor revoked. */
  function LiveIn(s: TokenStore, scope: Scope): set<string> {
    set id | id in Recorded(s) && Info(s, id).scope == scope && !IsConsumed(s, id) && !IsRevoked(s, id)
  }

  function RevokeScope(s: TokenStore, scope: Scope): TokenStore {
    match s
    case Memory(_, _, _) => s.(revokedIds := s.revokedIds + LiveIn(s, scope))
    case Sql(rows) =>
      Sql(map id | id in rows :: if id in LiveIn(s, scope) then rows[id].(revoked := true) else rows[id])
  }

  function ExpiredIds(s: TokenStore, nowIso: string): set<string> {
    set id | id in Recorded(s) && StrLess(Info(s, id).expires, nowIso)
  }

  function Purge(s: TokenStore, nowIso: string): TokenStore {
    var gone := ExpiredIds(s, nowIso);
    match s
    case Memory(issued, consumed, revoked) => Memory(issued - gone, consumed - gone, revoked - gone)
    case Sql(rows) => Sql(rows - gone)
  }

  // ---------- what one operation does ----------

  /** Recording files the token under its id and marks nothing. The SQL insert keeps a row it has. */
  lemma RecordEffect(s: TokenStore, id: string, info: Issued)
    ensures
      var s' := RecordIssued(s, id, info);
      && Recorded(s') == Recorded(s) + {id}
      && Info(s', id) == (if s.Sql? && id in Recorded(s) then Info(s, id) else info)
      && (forall other :: other in Recorded(s) && other != id ==> Info(s', other) == Info(s, other))
      && (forall other :: IsConsumed(s', other) == IsConsumed(s, other) && IsRevoked(s', other) == IsRevoked(s, other))
  {}

  /** Revoking marks one id and nothing else; the SQL update needs a row. */
  lemma RevokeEffect(s: TokenStore, id: string)
    ensures
      var s' := Revoke(s, id);
      && Recorded(s') == Recorded(s)
      && (forall other :: other in Recorded(s) ==> Info(s', other) == Info(s, other))
      && (forall other :: IsConsumed(s', other) == IsConsumed(s, other))
      && (forall other :: IsRevoked(s', other) <==> IsRevoked(s, other) || (other == id && (s.Memory? || id in Recorded(s))))
  {}

  /** Revoking a scope revokes exactly its recorded tokens that are not used up, touches no other
      token, and its count is the number of tokens it newly revokes. */
  lemma RevokeScopeEffect(s: TokenStore, scope: Scope)
    ensures
      var s' := RevokeScope(s, scope);
      && Recorded(s') == Recorded(s)
      && LiveIn(s', scope) == {}
      && (forall other :: other != scope ==> LiveIn(s', other) == LiveIn(s, other))
      && (forall id :: id in Recorded(s) ==> Info(s', id) == Info(s, id))
      && (forall id :: IsConsumed(s', id) == IsConsumed(s, id))
      && (forall id :: IsRevoked(s', id) <==>
            IsRevoked(s, id) || (id in Recorded(s) && Info(s, id).scope == scope && !IsConsumed(s, id)))
      && (forall id :: id in LiveIn(s, scope) <==> IsRevoked(s', id) && !IsRevoked(s, id))
  {}

  /** A consumption succeeds on an id that is neither used nor revoked, and recorded where the store
      needs a row. It then marks that id alone, and succeeds once. */
  lemma ConsumeOnce(s: TokenStore, id: string)
    ensures CanConsume(s, id) <==> !IsConsumed(s, id) && !IsRevoked(s, id) && (s.Sql? ==> id in Recorded(s))
    ensures CanConsume(s, id) ==> IsConsumed(TryConsume(s, id), id)
    ensures !CanConsume(s, id) ==> TryConsume(s, id) == s
    ensures !CanConsume(TryConsume(s, id), id)
    ensures Recorded(TryConsume(s, id)) == Recorded(s)
    ensures forall other :: other != id ==>
              (CanConsume(TryConsume(s, id), other) == CanConsume(s, other))
    ensures forall other :: IsRevoked(TryConsume(s, id), other) == IsRevoked(s, other)
  {}

  /** A purge forgets exactly the tokens whose printed expiry sorts before the time, marks included, and
      leaves every other token as it was. */
  lemma PurgeEffect(s: TokenStore, nowIso: string)
    ensures
      var s' := Purge(s, nowIso);
      && (forall id :: id in Recorded(s') <==> id in Recorded(s) && !StrLess(Info(s, id).expires, nowIso))
      && (forall id :: id in Recorded(s') ==> Info(s', id) == Info(s, id))
      && (forall id :: id in ExpiredIds(s, nowIso) <==> id in Recorded(s) && id !in Recorded(s'))
      && (forall id :: IsConsumed(s', id) <==> IsConsumed(s, id) && id !in ExpiredIds(s, nowIso))
      && (forall id :: IsRevoked(s', id) <==> IsRevoked(s, id) && id !in ExpiredIds(s, nowIso))
  {}

  // ---------- the two stores behave alike ----------

  datatype Op =
    | OpRecord(id: string, info: Issued)
    | OpConsume(id: string)
    | OpRevoke(id: string)
    | OpIsConsumed(id: string)
    | OpIsRevoked(id: string)
    | OpRevokeScope(scope: Scope)
    | OpPurge(nowIso: string)

  datatype Reply = Done | Answer(b: bool) | Affected(n: nat)

  function Run(s: TokenStore, op: Op): (TokenStore, Reply) {
    match op
    case OpRecord(id, info) => (RecordIssued(s, id, info), Done)
    case OpConsume(id) => (TryConsume(s, id), Answer(CanConsume(s, id)))
    case OpRevoke(id) => (Revoke(s, id), Done)
    case OpIsConsumed(id) => (s, Answer(IsConsumed(s, id)))
    case OpIsRevoked(id) => (s, Answer(IsRevoked(s, id)))
    case OpRevokeScope(scope) => (RevokeScope(s, scope), Affected(|LiveIn(s, scope)|))
    case OpPurge(nowIso) => (Purge(s, nowIso), Affected(|ExpiredIds(s, nowIso)|))
  }

  /** The sets and the rows say the same. */
  ghost predicate Agree(m: TokenStore, t: TokenStore) {
    && m.Memory? && t.Sql?
    && m.issued.Keys == t.rows.Keys
    && m.consumedIds <= m.issued.Keys && m.revokedIds <= m.issued.Keys
    && forall id :: id in t.rows ==>
         t.rows[id] == Row(m.issued[id], id in m.consumedIds, id in m.revokedIds)
  }

  /** An operation both stores understand alike: issued ids are new (or recorded again unchanged),
      consume and revoke go to recorded ids. */
  predicate Touches(s: TokenStore, op: Op) {
    match op
    case OpRecord(id, info) => id in Recorded(s) ==> Info(s, id) == info
    case OpConsume(id) => id in Recorded(s)
    case OpRevoke(id) => id in Recorded(s)
    case _ => true
  }

  lemma AgreeReads(m: TokenStore, t: TokenStore)
    requires Agree(m, t)
    ensures Recorded(m) == Recorded(t)
    ensures forall id :: id in Recorded(m) ==> Info(m, id) == Info(t, id)
    ensures forall id :: IsConsumed(m, id) == IsConsumed(t, id) && IsRevoked(m, id) == IsRevoked(t, id)
    ensures forall scope :: LiveIn(m, scope) == LiveIn(t, scope)
    ensures forall nowIso :: ExpiredIds(m, nowIso) == ExpiredIds(t, nowIso)
  {}

  ghost predicate AgreeAfter(m: TokenStore, t: TokenStore, op: Op) {
    Agree(Run(m, op).0, Run(t, op).0) && Run(m, op).1 == Run(t, op).1
  }

  lemma AgreeRecord(m: TokenStore, t: TokenStore, id: string, info: Issued)
    requires Agree(m, t)
    ensures AgreeAfter(m, t, OpRecord(id, info)) <==> Touches(m, OpRecord(id, info))
  {
    var op := OpRecord(id, info);
    if id in t.rows {
      assert Run(t, op).0.rows[id] == t.rows[id] && Run(m, op).0.issued[id] == info;
    }
  }

  lemma AgreeConsume(m: TokenStore, t: TokenStore, id: string)
    requires Agree(m, t)
    ensures AgreeAfter(m, t, OpConsume(id)) <==> Touches(m, OpConsume(id))
  {}

  lemma AgreeRevoke(m: TokenStore, t: TokenStore, id: string)
    requires Agree(m, t)
    ensures AgreeAfter(m, t, OpRevoke(id)) <==> Touches(m, OpRevoke(id))
  {
    if id !in t.rows {
      var m' := Run(m, OpRevoke(id)).0;
      assert id in m'.revokedIds && id !in m'.issued.Keys;
    }
  }

  lemma AgreeRevokeScope(m: TokenStore, t: TokenStore, scope: Scope)
    requires Agree(m, t)
    ensures AgreeAfter(m, t, OpRevokeScope(scope))
  {
    AgreeReads(m, t);
  }

  lemma AgreePurge(m: TokenStore, t: TokenStore, nowIso: string)
    requires Agree(m, t)
    ensures AgreeAfter(m, t, OpPurge(nowIso))
  {
    AgreeReads(m, t);
  }

  /** From agreeing states an operation keeps the stores in agreement, replies included, exactly when
      it touches only what both know. */
  lemma AgreeStep(m: TokenStore, t: TokenStore, op: Op)
    requires Agree(m, t)
    ensures AgreeAfter(m, t, op) <==> Touches(m, op)
  {
    match op
    case OpRecord(id, info) => AgreeRecord(m, t, id, info);
    case OpConsume(id) => AgreeConsume(m, t, id);
    case OpRevoke(id) => AgreeRevoke(m, t, id);
    case OpRevokeScope(scope) => AgreeRevokeScope(m, t, scope);
    case OpPurge(nowIso) => AgreePurge(m, t, nowIso);
    case _ =>
  }

  function RunAll(s: TokenStore, ops: seq<Op>): (TokenStore, seq<Reply>)
    decreases |ops|
  {
    if ops == [] then (s, []) else
      var first := Run(s, ops[0]);
      var rest := RunAll(first.0, ops[1..]);
      (rest.0, [first.1] + rest.1)
  }

  ghost predicate AllTouch(s: TokenStore, ops: seq<Op>)
    decreases |ops|
  {
    ops == [] || (Touches(s, ops[0]) && AllTouch(Run(s, ops[0]).0, ops[1..]))
  }

  /** On every such history the two stores give the same reply to every operation. */
  lemma {:induction false} StoresIndistinguishable(m: TokenStore, t: TokenStore, ops: seq<Op>)
    requires Agree(m, t) && AllTouch(m, ops)
    ensures RunAll(m, ops).1 == RunAll(t, ops).1
    ensures Agree(RunAll(m, ops).0, RunAll(t, ops).0)
    decreases |ops|
  {
    if ops != [] {
      AgreeStep(m, t, ops[0]);
      StoresIndistinguishable(Run(m, ops[0]).0, Run(t, ops[0]).0, ops[1..]);
    }
  }

  /** They start in agreement. */
  lemma FreshStoresAgree()
    ensures Agree(Memory(map[], {}, {}), Sql(map[]))
  {}
}
