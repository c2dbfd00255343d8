/** The two capability stores (earned_autonomy/core/capability_store.py). */
module CapabilityStores {
  import opened JsonValues
  import opened Models
  import opened T = TokenStates

  /** Visiting one more element of `live`. */
  lemma SeenStep(live: set<string>, rest: set<string>, id: string)
    requires id in rest
    ensures live - (rest - {id}) == (live - rest) + (if id in live then {id} else {})
  {
    if id in live {
      assert live - (rest - {id}) == (live - rest) + {id};
    } else {
      assert live - (rest - {id}) == live - rest;
    }
  }

  /** Single-process backend. */
  class InMemoryCapabilityStore {
    var issued: map<string, Issued>
    var consumed: set<string>
    var revoked: set<string>

    function View(): TokenStore
      reads this
    {
      Memory(issued, consumed, revoked)
    }

    constructor ()
      ensures View() == Memory(map[], {}, {})
    {
      issued, consumed, revoked := map[], {}, {};
    }

    method RecordIssued(id: string, info: Issued)
      modifies this
      ensures View() == T.RecordIssued(old(View()), id, info)
    {
      issued := issued[id := info];
    }

    method TryConsume(id: string) returns (ok: bool)
      modifies this
      ensures View() == T.TryConsume(old(View()), id)
      ensures ok <==> CanConsume(old(View()), id)
    {
      if id in consumed || id in revoked {
        return false;
      }
      consumed := consumed + {id};
      return true;
    }

    method IsConsumed(id: string) returns (b: bool)
      ensures b <==> T.IsConsumed(View(), id)
    {
      b := id in consumed;
    }

    method Revoke(id: string)
      modifies this
      ensures View() == T.Revoke(old(View()), id)
    {
      revoked := revoked + {id};
    }

    method IsRevoked(id: string) returns (b: bool)
      ensures b <==> T.IsRevoked(View(), id)
    {
      b := id in revoked;
    }

    method RevokeScope(scope: Scope) returns (count: nat)
      modifies this
      ensures View() == T.RevokeScope(old(View()), scope)
      ensures count == |LiveIn(old(View()), scope)|
    {
      var hits := ScanScope(issued, consumed, revoked, scope);
      revoked := revoked + hits;
      count := |hits|;
    }

    /** The loop over the issued tokens, under the lock. */
    static method ScanScope(issued: map<string, Issued>, consumed: set<string>, revoked: set<string>, scope: Scope)
      returns (hits: set<string>)
      ensures hits == LiveIn(Memory(issued, consumed, revoked), scope)
    {
      ghost var live := LiveIn(Memory(issued, consumed, revoked), scope);
      hits := {};
      var rest := issued.Keys;
      while rest != {}
        invariant rest <= issued.Keys
        invariant hits == live - rest
      {
        var id :| id in rest;
        SeenStep(live, rest, id);
        rest := rest - {id};
        if issued[id].scope == scope && id !in revoked && id !in consumed {
          hits := hits + {id};
        }
      }
    }

    method PurgeExpired(nowIso: string) returns (count: nat)
      modifies this
      ensures View() == Purge(old(View()), nowIso)
      ensures count == |ExpiredIds(old(View()), nowIso)|
    {
      var expired := set id | id in issued && StrLess(issued[id].expires, nowIso);
      assert expired == ExpiredIds(View(), nowIso);
      var rest := expired;
      while rest != {}
        invariant rest <= expired
        invariant issued == old(issued) - (expired - rest)
        invariant consumed == old(consumed) - (expired - rest)
        invariant revoked == old(revoked) - (expired - rest)
      {
        var id :| id in rest;
        issued, consumed, revoked := issued - {id}, consumed - {id}, revoked - {id};
        rest := rest - {id};
      }
      count := |expired|;
    }
  }

  /** Database backend: each method is one statement on the table. */
  class SqlCapabilityStore {
    var rows: map<string, Row>

    function View(): TokenStore
      reads this
    {
      Sql(rows)
    }

    constructor ()
      ensures View() == Sql(map[])
    {
      rows := map[];
    }

    method RecordIssued(id: string, info: Issued)
      modifies this
      ensures View() == T.RecordIssued(old(View()), id, info)
    {
      // the primary key refuses a second row for an id
      if id !in rows {
        rows := rows[id := Row(info, false, false)];
      }
    }

    /** The rows a conditional UPDATE selects are rewritten together; `count` is its row count. */
    method Update(selected: set<string>, f: Row -> Row) returns (count: nat)
      modifies this
      ensures rows == map id | id in old(rows) :: if id in selected then f(old(rows)[id]) else old(rows)[id]
      ensures count == |selected * old(rows).Keys|
    {
      count := |selected * rows.Keys|;
      rows := map id | id in rows :: if id in selected then f(rows[id]) else rows[id];
    }

    method TryConsume(id: string) returns (ok: bool)
      modifies this
      ensures View() == T.TryConsume(old(View()), id)
      ensures ok <==> CanConsume(old(View()), id)
    {
      var selected := set r | r in rows && r == id && !rows[r].consumed && !rows[r].revoked;
      assert selected == if CanConsume(View(), id) then {id} else {};
      ghost var before := rows;
      var count := Update(selected, (r: Row) => r.(consumed := true));
      assert selected * before.Keys == selected;
      ok := count == 1;
    }

    method IsConsumed(id: string) returns (b: bool)
      ensures b <==> T.IsConsumed(View(), id)
    {
      b := id in rows && rows[id].consumed;
    }

    method Revoke(id: string)
      modifies this
      ensures View() == T.Revoke(old(View()), id)
    {
      var _ := Update({id}, (r: Row) => r.(revoked := true));
    }

    method IsRevoked(id: string) returns (b: bool)
      ensures b <==> T.IsRevoked(View(), id)
    {
      b := id in rows && rows[id].revoked;
    }

    method RevokeScope(scope: Scope) returns (count: nat)
      modifies this
      ensures View() == T.RevokeScope(old(View()), scope)
      ensures count == |LiveIn(old(View()), scope)|
    {
      var selected :=
        set id | id in rows && rows[id].info.scope == scope && !rows[id].revoked && !rows[id].consumed;
      assert selected == LiveIn(View(), scope) && selected * rows.Keys == selected;
      count := Update(selected, (r: Row) => r.(revoked := true));
    }

    method PurgeExpired(nowIso: string) returns (count: nat)
      modifies this
      ensures View() == Purge(old(View()), nowIso)
      ensures count == |ExpiredIds(old(View()), nowIso)|
    {
      var gone := set id | id in rows && StrLess(rows[id].info.expires, nowIso);
      assert gone == ExpiredIds(View(), nowIso);
      rows := rows - gone;
      count := |gone|;
    }
  }

  /** The state protocol: whichever backend a service was given. */
  datatype StateStore = InMemory(memory: InMemoryCapabilityStore) | Database(sql: SqlCapabilityStore) {

    ghost function Footprint(): set<object> {
      match this case InMemory(m) => {m} case Database(d) => {d}
    }

    function View(): TokenStore
      reads Footprint()
    {
      match this case InMemory(m) => m.View() case Database(d) => d.View()
    }

    method RecordIssued(id: string, info: Issued)
      modifies Footprint()
      ensures View() == T.RecordIssued(old(View()), id, info)
    {
      match this { case InMemory(m) => m.RecordIssued(id, info); case Database(d) => d.RecordIssued(id, info); }
    }

    method TryConsume(id: string) returns (ok: bool)
      modifies Footprint()
      ensures View() == T.TryConsume(old(View()), id)
      ensures ok <==> CanConsume(old(View()), id)
    {
      match this { case InMemory(m) => ok := m.TryConsume(id); case Database(d) => ok := d.TryConsume(id); }
    }

    method IsRevoked(id: string) returns (b: bool)
      ensures b <==> T.IsRevoked(View(), id)
    {
      match this { case InMemory(m) => b := m.IsRevoked(id); case Database(d) => b := d.IsRevoked(id); }
    }

    method Revoke(id: string)
      modifies Footprint()
      ensures View() == T.Revoke(old(View()), id)
    {
      match this { case InMemory(m) => m.Revoke(id); case Database(d) => d.Revoke(id); }
    }

    method RevokeScope(scope: Scope) returns (count: nat)
      modifies Footprint()
      ensures View() == T.RevokeScope(old(View()), scope)
      ensures count == |LiveIn(old(View()), scope)|
    {
      match this { case InMemory(m) => count := m.RevokeScope(scope); case Database(d) => count := d.RevokeScope(scope); }
    }

    method PurgeExpired(nowIso: string) returns (count: nat)
      modifies Footprint()
      ensures View() == Purge(old(View()), nowIso)
      ensures count == |ExpiredIds(old(View()), nowIso)|
    {
      match this { case InMemory(m) => count := m.PurgeExpired(nowIso); case Database(d) => count := d.PurgeExpired(nowIso); }
    }
  }
}
