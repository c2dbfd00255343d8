/** How far at-most-one goes on the in-memory store: exactly as far as no mark is forgotten under a
    replica about to consume. */
module RaceLimits {
  import opened Options
  import opened JsonValues
  import opened CanonicalProperties
  import opened Instants
  import opened Models
  import opened Tokens
  import opened TokenStates
  import opened Capabilities
  import R = Race

  // ---------- runs put together ----------

  lemma {:induction false} RunsJoin(issuer: Issuer, w: R.Shared, a: seq<R.Move>, b: seq<R.Move>)
    requires R.LegalRun(issuer, w, a) && R.LegalRun(issuer, R.RunOf(issuer, w, a), b)
    ensures R.LegalRun(issuer, w, a + b) && R.RunOf(issuer, w, a + b) == R.RunOf(issuer, R.RunOf(issuer, w, a), b)
    decreases |a|
  {
    if a == [] {
      assert a + b == b;
    } else {
      assert (a + b)[1..] == a[1..] + b;
      RunsJoin(issuer, R.Step(issuer, w, a[0]), a[1..], b);
    }
  }

  lemma OneMove(issuer: Issuer, w: R.Shared, m: R.Move)
    requires R.LegalMove(issuer, w, m)
    ensures R.LegalRun(issuer, w, [m]) && R.RunOf(issuer, w, [m]) == R.Step(issuer, w, m)
  {
    assert [m][1..] == [];
  }

  // ---------- a replica in the window wins an open token ----------

  /** Some legal run from here wins the token. */
  ghost predicate WinningRun(issuer: Issuer, w: R.Shared, id: string, moves: seq<R.Move>) {
    R.LegalRun(issuer, w, moves) && !R.NoOkSince(R.RunOf(issuer, w, moves), id, |w.oks|)
  }

  ghost predicate OnlyGoes(moves: seq<R.Move>) {
    forall i :: 0 <= i < |moves| ==> moves[i].Go?
  }

  /** Replica steps free nothing. */
  lemma {:induction false} GoesFreeNothing(issuer: Issuer, w: R.Shared, moves: seq<R.Move>, mark: R.Mark, id: string)
    requires R.LegalRun(issuer, w, moves) && OnlyGoes(moves)
    ensures R.NoneFreed(issuer, w, moves, mark, id)
    decreases |moves|
  {
    if moves != [] {
      assert moves[0].Go?;
      GoesFreeNothing(issuer, R.Step(issuer, w, moves[0]), moves[1..], mark, id);
    }
  }

  /** At the consumption an open token is won. */
  lemma ConsumeWins(issuer: Issuer, w: R.Shared, r: nat)
    requires r < |w.replicas| && w.replicas[r].AtConsume? && CanConsume(w.store, w.replicas[r].call.token.tokenId)
    ensures R.Step(issuer, w, R.Go(r)).oks == w.oks + [w.replicas[r].call.token]
  {}

  /** Before it, once the action is checked. */
  lemma ScopeLeadsToConsume(issuer: Issuer, w: R.Shared, r: nat)
    requires r < |w.replicas| && w.replicas[r].AtScope? && w.replicas[r].call.token.singleUse
    requires ActionCheck(w.replicas[r].call.token, w.replicas[r].call.action, w.replicas[r].call.context) == Accepted
    ensures
      var w' := R.Step(issuer, w, R.Go(r));
      w'.replicas == w.replicas[r := R.AtConsume(w.replicas[r].call)] && w'.store == w.store && w'.oks == w.oks
  {}

  /** So a replica in the window wins a token that can be consumed, by its own steps alone. */
  lemma WindowWins(issuer: Issuer, w: R.Shared, r: nat, id: string) returns (moves: seq<R.Move>)
    requires R.Fits(issuer, w) && r < |w.replicas| && R.InWindow(w.replicas[r], id) && CanConsume(w.store, id)
    ensures WinningRun(issuer, w, id, moves) && OnlyGoes(moves)
    ensures R.RunOf(issuer, w, moves).oks == w.oks + [w.replicas[r].call.token] && w.replicas[r].call.token.singleUse
  {
    assert R.ReplicaFits(issuer, w, w.replicas[r]);
    if w.replicas[r].AtConsume? {
      moves := [R.Go(r)];
      OneMove(issuer, w, R.Go(r));
      ConsumeWins(issuer, w, r);
    } else {
      moves := [R.Go(r)] + [R.Go(r)];
      var w1 := R.Step(issuer, w, R.Go(r));
      ScopeLeadsToConsume(issuer, w, r);
      OneMove(issuer, w, R.Go(r));
      OneMove(issuer, w1, R.Go(r));
      ConsumeWins(issuer, w1, r);
      RunsJoin(issuer, w, [R.Go(r)], [R.Go(r)]);
    }
    assert (w.oks + [w.replicas[r].call.token])[|w.oks|].tokenId == id;
  }

  // ---------- exactly when a purge reopens a shut token ----------

  /** What the in-memory store has dropped bears no mark. */
  lemma DroppedIsOpen(w: R.Shared, issuer: Issuer, nowIso: string, id: string)
    requires w.store.Memory? && id in ExpiredIds(w.store, nowIso)
    ensures CanConsume(R.Step(issuer, w, R.PurgeUpTo(nowIso)).store, id)
  {}

  /** A used or revoked token: after a purge some run that frees nothing wins it exactly when the purge
      freed it, that is, when the store is the in-memory one, the purge dropped the token, and a replica
      was in the window with it. */
  lemma PurgeReopensExactly(issuer: Issuer, w: R.Shared, nowIso: string, mark: R.Mark, id: string)
    requires Sound(issuer) && R.Fits(issuer, w) && R.LegalMove(issuer, w, R.PurgeUpTo(nowIso))
    requires R.MintedAs(w.minted, id) && R.Shuts(mark, w.store, id)
    ensures
      var w1 := R.Step(issuer, w, R.PurgeUpTo(nowIso));
      (exists moves :: WinningRun(issuer, w1, id, moves) && R.NoneFreed(issuer, w1, moves, mark, id))
      <==> R.Frees(w, R.PurgeUpTo(nowIso), mark, id)
  {
    var w1 := R.Step(issuer, w, R.PurgeUpTo(nowIso));
    R.MoveKeepsFits(issuer, w, R.PurgeUpTo(nowIso));
    if R.Frees(w, R.PurgeUpTo(nowIso), mark, id) {
      var r :| 0 <= r < |w.replicas| && R.InWindow(w.replicas[r], id);
      DroppedIsOpen(w, issuer, nowIso, id);
      var moves := WindowWins(issuer, w1, r, id);
      GoesFreeNothing(issuer, w1, moves, mark, id);
    } else {
      R.ClosedStays(issuer, w, R.PurgeUpTo(nowIso), mark, id);
      ClosedHasNoWinningRun(issuer, w1, mark, id);
    }
  }

  lemma ClosedHasNoWinningRun(issuer: Issuer, w: R.Shared, mark: R.Mark, id: string)
    requires Sound(issuer) && R.Fits(issuer, w) && R.Closed(w, mark, id)
    ensures !exists moves :: WinningRun(issuer, w, id, moves) && R.NoneFreed(issuer, w, moves, mark, id)
  {
    forall moves | R.LegalRun(issuer, w, moves) && R.NoneFreed(issuer, w, moves, mark, id)
      ensures !WinningRun(issuer, w, id, moves)
    {
      R.ClosedNeverWins(issuer, w, moves, mark, id, |w.oks|);
    }
  }

  /** A token of a scope just revoked: some run that frees nothing still wins it exactly when it escaped
      the revocation. */
  lemma ScopeRevokeMissesExactly(issuer: Issuer, w: R.Shared, scope: Scope, i: nat)
    requires Sound(issuer) && R.Fits(issuer, w) && i < |w.minted| && TokenScope(w.minted[i]) == scope
    ensures
      var id := w.minted[i].tokenId;
      var w1 := R.Step(issuer, w, R.RevokeAll(scope));
      (exists moves :: WinningRun(issuer, w1, id, moves) && R.NoneFreed(issuer, w1, moves, R.MarkOf(w.store, id), id))
      <==> R.Escapes(w, id)
  {
    var id := w.minted[i].tokenId;
    var w1 := R.Step(issuer, w, R.RevokeAll(scope));
    R.MoveKeepsFits(issuer, w, R.RevokeAll(scope));
    if R.Escapes(w, id) {
      var r :| 0 <= r < |w.replicas| && R.InWindow(w.replicas[r], id);
      RevokeScopeEffect(w.store, scope);
      var moves := WindowWins(issuer, w1, r, id);
      GoesFreeNothing(issuer, w1, moves, R.MarkOf(w.store, id), id);
    } else {
      R.ScopeRevokeCloses(issuer, w, scope, i);
      ClosedHasNoWinningRun(issuer, w1, R.MarkOf(w.store, id), id);
    }
  }

  // ---------- exactly when at-most-one survives a move ----------

  /** Whatever follows without forgetting another use, no token is won twice. */
  ghost predicate Safe(issuer: Issuer, w: R.Shared) {
    forall moves :: R.LegalRun(issuer, w, moves) && R.UsesKept(issuer, w, moves) ==> R.OneOkEach(R.RunOf(issuer, w, moves))
  }

  /** THE boundary of at-most-one, for both stores: a move leaves it standing for all that follows
      exactly when it frees no token that was won. Only a purge of the in-memory store can. */
  lemma OneWinnerExactly(issuer: Issuer, w: R.Shared, m: R.Move)
    requires Sound(issuer) && R.Fits(issuer, w) && R.WinsClosed(w) && R.LegalMove(issuer, w, m)
    ensures Safe(issuer, R.Step(issuer, w, m)) <==> forall id :: R.Won(w, id) ==> !R.Frees(w, m, R.Use, id)
  {
    var w1 := R.Step(issuer, w, m);
    R.MoveKeepsFits(issuer, w, m);
    if forall id :: R.Won(w, id) ==> !R.Frees(w, m, R.Use, id) {
      R.MoveKeepsWinsClosed(issuer, w, m);
      forall moves | R.LegalRun(issuer, w1, moves) && R.UsesKept(issuer, w1, moves)
        ensures R.OneOkEach(R.RunOf(issuer, w1, moves))
      {
        R.RunKeepsWinsClosed(issuer, w1, moves);
      }
    } else {
      var id :| R.Won(w, id) && R.Frees(w, m, R.Use, id);
      FreedIsWonAgain(issuer, w, m, id);
    }
  }

  lemma FreedIsWonAgain(issuer: Issuer, w: R.Shared, m: R.Move, id: string)
    requires R.Fits(issuer, w) && R.LegalMove(issuer, w, m) && R.Won(w, id) && R.Frees(w, m, R.Use, id)
    ensures !Safe(issuer, R.Step(issuer, w, m))
  {
    var w1 := R.Step(issuer, w, m);
    R.MoveKeepsFits(issuer, w, m);
    var r :| 0 <= r < |w.replicas| && R.InWindow(w.replicas[r], id);
    DroppedIsOpen(w, issuer, m.nowIso, id);
    var moves := WindowWins(issuer, w1, r, id);
    forall other ensures R.NoneFreed(issuer, w1, moves, R.Use, other) {
      GoesFreeNothing(issuer, w1, moves, R.Use, other);
    }
    WonAgain(w, R.RunOf(issuer, w1, moves), w.replicas[r].call.token);
  }

  lemma WonAgain(w: R.Shared, later: R.Shared, t: Token)
    requires R.Won(w, t.tokenId) && later.oks == w.oks + [t] && t.singleUse
    ensures !R.OneOkEach(later)
  {
    var i :| 0 <= i < |w.oks| && w.oks[i].singleUse && w.oks[i].tokenId == t.tokenId;
    assert later.oks[i] == w.oks[i] && later.oks[|w.oks|] == t;
  }

  // ---------- and a run from the start gets there ----------

  /** Presented with a token on record that passes every check, a replica gets as far as the
      consumption in five moves. */
  function Approach(r: nat, c: R.Call): seq<R.Move> {
    [R.Present(r, c)] + [R.Go(r)] + [R.Go(r)] + [R.Go(r)] + [R.Go(r)]
  }

  ghost predicate Passes(issuer: Issuer, w: R.Shared, c: R.Call) {
    && SignatureValid(issuer, c.token) && R.Genuine(issuer, w.minted, c.token)
    && !IsRevoked(w.store, c.token.tokenId) && ExpiryCheck(c.token, w.clock) == Accepted
    && ActionCheck(c.token, c.action, c.context) == Accepted && c.token.singleUse
  }

  function Placed(w: R.Shared, r: nat, stage: R.Stage): R.Shared
    requires r < |w.replicas|
  {
    w.(replicas := w.replicas[r := stage])
  }

  lemma GoTo(issuer: Issuer, w: R.Shared, r: nat, stage: R.Stage, next: R.Stage)
    requires r < |w.replicas| && !stage.Idle? && !next.Finished?
    requires R.Advance(issuer, w.store, w.clock, stage) == (next, w.store)
    ensures R.Step(issuer, Placed(w, r, stage), R.Go(r)) == Placed(w, r, next)
  {
    assert w.replicas[r := stage][r := next] == w.replicas[r := next];
  }

  lemma Reaches(issuer: Issuer, w: R.Shared, r: nat, c: R.Call)
    requires r < |w.replicas| && R.Resting(w.replicas[r]) && Passes(issuer, w, c)
    ensures R.LegalRun(issuer, w, Approach(r, c))
    ensures R.RunOf(issuer, w, Approach(r, c)) == Placed(w, r, R.AtConsume(c))
  {
    var a, g := [R.Present(r, c)], [R.Go(r)];
    OneMove(issuer, w, R.Present(r, c));
    GoTo(issuer, w, r, R.AtSignature(c), R.AtRevoked(c));
    GoTo(issuer, w, r, R.AtRevoked(c), R.AtClock(c));
    GoTo(issuer, w, r, R.AtClock(c), R.AtScope(c));
    GoTo(issuer, w, r, R.AtScope(c), R.AtConsume(c));
    OneMove(issuer, Placed(w, r, R.AtSignature(c)), R.Go(r));
    OneMove(issuer, Placed(w, r, R.AtRevoked(c)), R.Go(r));
    OneMove(issuer, Placed(w, r, R.AtClock(c)), R.Go(r));
    OneMove(issuer, Placed(w, r, R.AtScope(c)), R.Go(r));
    RunsJoin(issuer, w, a, g);
    RunsJoin(issuer, w, a + g, g);
    RunsJoin(issuer, w, a + g + g, g);
    RunsJoin(issuer, w, a + g + g + g, g);
  }

  /** Two replicas about to consume one recorded in-memory token: one does so in time, the token expires
      and is purged, and the other consumes it again. */
  function Doubling(now: Instant): seq<R.Move> {
    [R.Go(0)] + [R.Tick(now)] + [R.PurgeUpTo(Iso(now))] + [R.Go(1)]
  }

  lemma PurgeThenWins(issuer: Issuer, w: R.Shared, now: Instant)
    requires w.store.Memory? && w.clock == now && |w.replicas| == 2 && w.replicas[1].AtConsume?
    requires var id := w.replicas[1].call.token.tokenId;
             id in Recorded(w.store) && StrLess(Info(w.store, id).expires, Iso(now))
    ensures
      var moves := [R.PurgeUpTo(Iso(now))] + [R.Go(1)];
      R.LegalRun(issuer, w, moves) && R.RunOf(issuer, w, moves).oks == w.oks + [w.replicas[1].call.token]
  {
    var w1 := R.Step(issuer, w, R.PurgeUpTo(Iso(now)));
    StrLessIrreflexive(Iso(now));
    assert w.replicas[1].call.token.tokenId in ExpiredIds(w.store, Iso(now));
    DroppedIsOpen(w, issuer, Iso(now), w.replicas[1].call.token.tokenId);
    ConsumeWins(issuer, w1, 1);
    OneMove(issuer, w, R.PurgeUpTo(Iso(now)));
    OneMove(issuer, w1, R.Go(1));
    RunsJoin(issuer, w, [R.PurgeUpTo(Iso(now))], [R.Go(1)]);
  }

  lemma GoThenTick(issuer: Issuer, w: R.Shared, now: Instant)
    requires w.store.Memory? && w.clock <= now && |w.replicas| == 2 && w.replicas[0].AtConsume?
    requires CanConsume(w.store, w.replicas[0].call.token.tokenId)
    ensures
      var moves := [R.Go(0)] + [R.Tick(now)];
      R.LegalRun(issuer, w, moves)
      && var w' := R.RunOf(issuer, w, moves);
         |w'.replicas| == 2 && w'.replicas[1] == w.replicas[1]
         && w'.oks == w.oks + [w.replicas[0].call.token] && w'.clock == now && w'.store == TryConsume(w.store, w.replicas[0].call.token.tokenId)
  {
    var w1 := R.Step(issuer, w, R.Go(0));
    ConsumeWins(issuer, w, 0);
    OneMove(issuer, w, R.Go(0));
    OneMove(issuer, w1, R.Tick(now));
    RunsJoin(issuer, w, [R.Go(0)], [R.Tick(now)]);
  }

  lemma Doubles(issuer: Issuer, w: R.Shared, t: Token, expires: Instant, now: Instant)
    requires w.store.Memory? && w.clock < expires < now && |w.replicas| == 2
    requires w.replicas[0].AtConsume? && w.replicas[1] == w.replicas[0] && w.replicas[0].call.token == t
    requires t.tokenId in Recorded(w.store) && Info(w.store, t.tokenId).expires == Iso(expires) && CanConsume(w.store, t.tokenId)
    ensures R.LegalRun(issuer, w, Doubling(now)) && R.RunOf(issuer, w, Doubling(now)).oks == w.oks + [t] + [t]
  {
    var a, b := [R.Go(0)] + [R.Tick(now)], [R.PurgeUpTo(Iso(now))] + [R.Go(1)];
    GoThenTick(issuer, w, now);
    IsoOrder(expires, now);
    PurgeThenWins(issuer, R.RunOf(issuer, w, a), now);
    RunsJoin(issuer, w, a, b);
    assert a + b == Doubling(now);
  }

  /** A token without conditions for an action of its scope. */
  predicate Plain(issuer: Issuer, t: Token, expires: Instant) {
    SignatureValid(issuer, t) && t.singleUse && t.conditions == [] && t.expiresAt == Iso(expires)
  }

  lemma PlainPasses(issuer: Issuer, w: R.Shared, t: Token, expires: Instant)
    requires Plain(issuer, t, expires) && w.clock < expires && t in w.minted && !IsRevoked(w.store, t.tokenId)
    ensures Passes(issuer, w, R.Call(t, TokenScope(t), map[]))
  {
    assert FromIso(t.expiresAt) == Some(expires);
    var i :| 0 <= i < |w.minted| && w.minted[i] == t;
    SameAsItself(t);
  }

  lemma SameAsItself(t: Token)
    ensures SameGrant(t, t)
  {
    CanonicalBytesDetermineValue(JsonValues.Obj(t.conditions), JsonValues.Obj(t.conditions));
  }

  /** The whole run: mint, two replicas up to the consumption, and the doubling. */
  function DoubleRun(t: Token, now: Instant): seq<R.Move> {
    var c := R.Call(t, TokenScope(t), map[]);
    [R.Mint(t)] + Approach(0, c) + Approach(1, c) + Doubling(now)
  }

  /** A legal run from the start in which an in-memory token is won twice: for any token that expires
      after the clock, without conditions, and any later time to purge at. */
  lemma DoubleUseIsReachable(issuer: Issuer, w: R.Shared, t: Token, expires: Instant, now: Instant)
    requires R.Initial(w) && w.store.Memory? && |w.replicas| == 2
    requires Plain(issuer, t, expires) && w.clock < expires < now
    ensures R.LegalRun(issuer, w, DoubleRun(t, now)) && R.RunOf(issuer, w, DoubleRun(t, now)).oks == [t, t]
  {
    var c := R.Call(t, TokenScope(t), map[]);
    var w1 := R.Step(issuer, w, R.Mint(t));
    var w2 := Placed(w1, 0, R.AtConsume(c));
    var w3 := Placed(w2, 1, R.AtConsume(c));
    assert w1.minted == [t];
    OneMove(issuer, w, R.Mint(t));
    PlainPasses(issuer, w1, t, expires);
    Reaches(issuer, w1, 0, c);
    PlainPasses(issuer, w2, t, expires);
    Reaches(issuer, w2, 1, c);
    Doubles(issuer, w3, t, expires, now);
    RunsJoin(issuer, w, [R.Mint(t)], Approach(0, c));
    RunsJoin(issuer, w, [R.Mint(t)] + Approach(0, c), Approach(1, c));
    RunsJoin(issuer, w, [R.Mint(t)] + Approach(0, c) + Approach(1, c), Doubling(now));
    assert w.oks + [t] + [t] == [t, t];
  }
}
