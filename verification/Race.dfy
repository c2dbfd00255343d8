/** Any number of replicas verifying tokens against one shared state, each a step at a time, with
    mints, revocations, clock ticks and purges in between
    (earned_autonomy/core/capability.py, earned_autonomy/core/capability_store.py). */
module Race {
  import opened JsonValues
  import opened Instants
  import opened Models
  import opened Tokens
  import opened TokenStates
  import opened Capabilities
  import opened Machine

  /** What one verification was asked. */
  datatype Call = Call(token: Token, action: Scope, context: Dict)

  /** Where a verification stands: at which read or write of the shared state it is next. */
  datatype Stage =
    | Idle
    | AtSignature(call: Call)
    | AtRevoked(call: Call)
    | AtClock(call: Call)
    | AtScope(call: Call)
    | AtConsume(call: Call)
    | AtExplain(call: Call)
    | Finished(call: Call, result: Verification)

  /** One step of one verification. */
  function Advance(issuer: Issuer, s: TokenStore, clock: Instant, stage: Stage): (Stage, TokenStore) {
    match stage
    case AtSignature(c) =>
      (if SignatureValid(issuer, c.token) then AtRevoked(c) else Finished(c, Refused(InvalidSignature)), s)
    case AtRevoked(c) =>
      (if IsRevoked(s, c.token.tokenId) then Finished(c, Refused(TokenRevoked)) else AtClock(c), s)
    case AtClock(c) =>
      var expiry := ExpiryCheck(c.token, clock);
      (if expiry == Accepted then AtScope(c) else Finished(c, expiry), s)
    case AtScope(c) =>
      var scope := ActionCheck(c.token, c.action, c.context);
      (if scope == Accepted && c.token.singleUse then AtConsume(c) else Finished(c, scope), s)
    case AtConsume(c) =>
      if CanConsume(s, c.token.tokenId) then (Finished(c, Accepted), TryConsume(s, c.token.tokenId)) else (AtExplain(c), s)
    case AtExplain(c) =>
      (Finished(c, Refused(if IsRevoked(s, c.token.tokenId) then TokenRevoked else AlreadyConsumed)), s)
    case _ => (stage, s)
  }

  /** Steps to go at most. */
  function Remaining(stage: Stage): nat {
    match stage
    case AtSignature(_) => 6 case AtRevoked(_) => 5 case AtClock(_) => 4
    case AtScope(_) => 3 case AtConsume(_) => 2 case AtExplain(_) => 1
    case _ => 0
  }

  function Finish(issuer: Issuer, s: TokenStore, clock: Instant, stage: Stage): (Stage, TokenStore)
    decreases Remaining(stage)
  {
    if Remaining(stage) == 0 then (stage, s) else
      var next := Advance(issuer, s, clock, stage);
      Finish(issuer, next.1, clock, next.0)
  }

  lemma FinishFromConsume(issuer: Issuer, s: TokenStore, clock: Instant, c: Call)
    ensures Finish(issuer, s, clock, AtConsume(c)) ==
            if CanConsume(s, c.token.tokenId) then (Finished(c, Accepted), TryConsume(s, c.token.tokenId))
            else (Finished(c, Refused(if IsRevoked(s, c.token.tokenId) then TokenRevoked else AlreadyConsumed)), s)
  {
    if !CanConsume(s, c.token.tokenId) {
      assert Finish(issuer, s, clock, AtConsume(c)) == Finish(issuer, s, clock, AtExplain(c));
    }
  }

  lemma FinishFromScope(issuer: Issuer, s: TokenStore, clock: Instant, c: Call)
    ensures Finish(issuer, s, clock, AtScope(c)) ==
            if ActionCheck(c.token, c.action, c.context) == Accepted && c.token.singleUse then Finish(issuer, s, clock, AtConsume(c))
            else (Finished(c, ActionCheck(c.token, c.action, c.context)), s)
  {}

  lemma FinishFromClock(issuer: Issuer, s: TokenStore, clock: Instant, c: Call)
    ensures Finish(issuer, s, clock, AtClock(c)) ==
            if ExpiryCheck(c.token, clock) == Accepted then Finish(issuer, s, clock, AtScope(c))
            else (Finished(c, ExpiryCheck(c.token, clock)), s)
  {}

  lemma FinishFromRevoked(issuer: Issuer, s: TokenStore, clock: Instant, c: Call)
    ensures Finish(issuer, s, clock, AtRevoked(c)) ==
            if IsRevoked(s, c.token.tokenId) then (Finished(c, Refused(TokenRevoked)), s)
            else Finish(issuer, s, clock, AtClock(c))
  {}

  lemma FinishFromSignature(issuer: Issuer, s: TokenStore, clock: Instant, c: Call)
    ensures Finish(issuer, s, clock, AtSignature(c)) ==
            if SignatureValid(issuer, c.token) then Finish(issuer, s, clock, AtRevoked(c))
            else (Finished(c, Refused(InvalidSignature)), s)
  {}

  /** Run without interference the steps are `verify_for_action`. */
  lemma UninterruptedIsVerifyForAction(issuer: Issuer, s: TokenStore, clock: Instant, c: Call)
    ensures
      var v := VerifyForAction(issuer, s, c.token, c.action, c.context, clock);
      Finish(issuer, s, clock, AtSignature(c)) == (Finished(c, v.0), v.1)
  {
    FinishFromSignature(issuer, s, clock, c);
    FinishFromRevoked(issuer, s, clock, c);
    FinishFromClock(issuer, s, clock, c);
    FinishFromScope(issuer, s, clock, c);
    FinishFromConsume(issuer, s, clock, c);
  }

  // ---------- interleavings ----------

  /** The shared state, the clock, every replica's verification, and two histories: the tokens minted
      and the verifications that came out ok. */
  datatype Shared = Shared(store: TokenStore, clock: Instant, replicas: seq<Stage>, minted: seq<Token>, oks: seq<Token>)

  datatype Move =
    | Present(replica: nat, call: Call)
    | Go(replica: nat)
    | Mint(token: Token)
    | RevokeToken(id: string)
    | RevokeAll(scope: Scope)
    | Tick(now: Instant)
    | PurgeUpTo(nowIso: string)

  predicate MintedAs(minted: seq<Token>, id: string) {
    exists i :: 0 <= i < |minted| && minted[i].tokenId == id
  }

  predicate Resting(stage: Stage) {
    stage.Idle? || stage.Finished?
  }

  /** Ids are never minted twice and signatures cannot be forged. Only the in-memory store, which
      forgets what it purges, also needs a clock that does not run backwards and purges that are not
      ahead of it. */
  ghost predicate LegalMove(issuer: Issuer, w: Shared, m: Move) {
    match m
    case Present(r, c) => r < |w.replicas| && Resting(w.replicas[r]) && Genuine(issuer, w.minted, c.token)
    case Go(r) => r < |w.replicas|
    case Mint(t) => !MintedAs(w.minted, t.tokenId) && !IsRevoked(w.store, t.tokenId) && SignatureValid(issuer, t)
    case Tick(now) => w.store.Memory? ==> w.clock <= now
    case PurgeUpTo(nowIso) => w.store.Memory? ==> !StrLess(Iso(w.clock), nowIso)
    case _ => true
  }

  /** A token with a valid signature grants what some minted token grants. */
  ghost predicate Genuine(issuer: Issuer, minted: seq<Token>, t: Token) {
    SignatureValid(issuer, t) ==> exists i :: 0 <= i < |minted| && SameGrant(minted[i], t)
  }

  function Step(issuer: Issuer, w: Shared, m: Move): Shared
    requires (m.Present? || m.Go?) ==> m.replica < |w.replicas|
  {
    match m
    case Present(r, c) => w.(replicas := w.replicas[r := AtSignature(c)])
    case Go(r) =>
      var next := Advance(issuer, w.store, w.clock, w.replicas[r]);
      w.(replicas := w.replicas[r := next.0], store := next.1,
         oks := if !Resting(w.replicas[r]) && next.0.Finished? && next.0.result == Accepted then w.oks + [next.0.call.token] else w.oks)
    case Mint(t) => w.(store := Record(w.store, t), minted := w.minted + [t])
    case RevokeToken(id) => w.(store := Revoke(w.store, id))
    case RevokeAll(scope) => w.(store := RevokeScope(w.store, scope))
    case Tick(now) => w.(clock := now)
    case PurgeUpTo(nowIso) => w.(store := Purge(w.store, nowIso))
  }

  /** Between its clock read and its consumption a replica bound to consume its token relies on what
      the store remembers about it. */
  predicate InWindow(stage: Stage, id: string) {
    && (stage.AtConsume?
        || (stage.AtScope? && stage.call.token.singleUse
            && ActionCheck(stage.call.token, stage.call.action, stage.call.context) == Accepted))
    && stage.call.token.tokenId == id
  }

  predicate NoneInWindow(w: Shared, id: string) {
    forall r :: 0 <= r < |w.replicas| ==> !InWindow(w.replicas[r], id)
  }

  ghost predicate LegalRun(issuer: Issuer, w: Shared, moves: seq<Move>)
    decreases |moves|
  {
    moves == [] || (LegalMove(issuer, w, moves[0]) && LegalRun(issuer, Step(issuer, w, moves[0]), moves[1..]))
  }

  ghost function RunOf(issuer: Issuer, w: Shared, moves: seq<Move>): Shared
    requires LegalRun(issuer, w, moves)
    decreases |moves|
  {
    if moves == [] then w else RunOf(issuer, Step(issuer, w, moves[0]), moves[1..])
  }

  // ---------- what shuts a token ----------

  /** The two marks that make a consumption fail. */
  datatype Mark = Use | Revocation

  predicate Shuts(mark: Mark, s: TokenStore, id: string) {
    match mark case Use => IsConsumed(s, id) case Revocation => IsRevoked(s, id)
  }

  ghost predicate ExpiredAs(w: Shared, id: string) {
    forall i :: 0 <= i < |w.minted| && w.minted[i].tokenId == id ==> Expired(w.minted[i], w.clock)
  }

  /** Nobody can win the token even without a mark: the table has no row for it, or it has expired and
      nobody is past the clock with it. */
  ghost predicate Gone(w: Shared, id: string) {
    if w.store.Sql? then id !in Recorded(w.store) else ExpiredAs(w, id) && NoneInWindow(w, id)
  }

  ghost predicate Closed(w: Shared, mark: Mark, id: string) {
    MintedAs(w.minted, id) && (Shuts(mark, w.store, id) || Gone(w, id))
  }

  /** The one thing that reopens a token: the in-memory store forgets its mark while some replica is in
      the window. */
  ghost predicate Frees(w: Shared, m: Move, mark: Mark, id: string) {
    && m.PurgeUpTo? && w.store.Memory? && id in ExpiredIds(w.store, m.nowIso)
    && Shuts(mark, w.store, id) && !NoneInWindow(w, id)
  }

  ghost predicate NoneFreed(issuer: Issuer, w: Shared, moves: seq<Move>, mark: Mark, id: string)
    requires LegalRun(issuer, w, moves)
    decreases |moves|
  {
    moves == [] || (!Frees(w, moves[0], mark, id) && NoneFreed(issuer, Step(issuer, w, moves[0]), moves[1..], mark, id))
  }

  lemma StepKeepsBackend(issuer: Issuer, w: Shared, m: Move)
    requires LegalMove(issuer, w, m)
    ensures Step(issuer, w, m).store.Sql? == w.store.Sql?
  {}

  /** The SQL store frees nothing. */
  lemma {:induction false} SqlFreesNothing(issuer: Issuer, w: Shared, moves: seq<Move>, mark: Mark, id: string)
    requires w.store.Sql? && LegalRun(issuer, w, moves)
    ensures NoneFreed(issuer, w, moves, mark, id)
    decreases |moves|
  {
    if moves != [] {
      StepKeepsBackend(issuer, w, moves[0]);
      SqlFreesNothing(issuer, Step(issuer, w, moves[0]), moves[1..], mark, id);
    }
  }

  // ---------- the invariant ----------

  /** Records are those of minted tokens; the in-memory store forgets only expired ones. */
  ghost predicate StoreFits(w: Shared) {
    && (forall id :: id in Recorded(w.store) ==> MintedAs(w.minted, id))
    && (forall i :: 0 <= i < |w.minted| ==> RecordFits(w, w.minted[i]))
  }

  ghost predicate RecordFits(w: Shared, t: Token) {
    if t.tokenId in Recorded(w.store) then Info(w.store, t.tokenId) == Issued(TokenScope(t), t.expiresAt)
    else w.store.Memory? ==> Expired(t, w.clock)
  }

  /** Nobody past the signature check holds a token that was not minted, and only single-use tokens get
      to be consumed. */
  ghost predicate ReplicaFits(issuer: Issuer, w: Shared, stage: Stage) {
    && (!stage.Idle? ==> Genuine(issuer, w.minted, stage.call.token))
    && (!stage.Idle? && !stage.AtSignature? && !stage.Finished? ==> SignatureValid(issuer, stage.call.token))
    && (stage.AtConsume? ==> stage.call.token.singleUse)
  }

  ghost predicate Fits(issuer: Issuer, w: Shared) {
    && (forall i, j :: 0 <= i < j < |w.minted| ==> w.minted[i].tokenId != w.minted[j].tokenId)
    && StoreFits(w)
    && (forall r :: 0 <= r < |w.replicas| ==> ReplicaFits(issuer, w, w.replicas[r]))
  }

  // ---------- every move keeps it ----------

  lemma GenuineStays(issuer: Issuer, minted: seq<Token>, t: Token, more: Token)
    requires Genuine(issuer, minted, t)
    ensures Genuine(issuer, minted + [more], t)
  {
    if SignatureValid(issuer, t) {
      var i :| 0 <= i < |minted| && SameGrant(minted[i], t);
      assert (minted + [more])[i] == minted[i];
    }
  }

  lemma MintKeepsFits(issuer: Issuer, w: Shared, t: Token)
    requires Fits(issuer, w) && LegalMove(issuer, w, Mint(t))
    ensures Fits(issuer, Step(issuer, w, Mint(t)))
  {
    var w' := Step(issuer, w, Mint(t));
    assert w'.minted[|w.minted|] == t;
    assert t.tokenId !in Recorded(w.store);
    forall id | id in Recorded(w'.store) ensures MintedAs(w'.minted, id) {
      if id != t.tokenId { MintedStays(w.minted, t, id); }
    }
    forall i | 0 <= i < |w'.minted| ensures RecordFits(w', w'.minted[i]) {
      if i < |w.minted| { assert w'.minted[i] == w.minted[i] && RecordFits(w, w.minted[i]); }
    }
    forall r | 0 <= r < |w'.replicas| ensures ReplicaFits(issuer, w', w'.replicas[r]) {
      assert ReplicaFits(issuer, w, w.replicas[r]);
      if !w.replicas[r].Idle? { GenuineStays(issuer, w.minted, w.replicas[r].call.token, t); }
    }
  }

  lemma MintedStays(minted: seq<Token>, more: Token, id: string)
    requires MintedAs(minted, id)
    ensures MintedAs(minted + [more], id)
  {
    var i :| 0 <= i < |minted| && minted[i].tokenId == id;
    assert (minted + [more])[i] == minted[i];
  }

  /** A replica's step never changes what is on record, keeps both marks, and enters the window only
      unexpired. */
  lemma AdvanceFacts(issuer: Issuer, s: TokenStore, clock: Instant, stage: Stage)
    ensures
      var next := Advance(issuer, s, clock, stage);
      && next.1.Memory? == s.Memory?
      && Recorded(next.1) == Recorded(s)
      && (forall id :: id in Recorded(s) ==> Info(next.1, id) == Info(s, id))
      && (forall id :: IsRevoked(next.1, id) == IsRevoked(s, id) && (IsConsumed(s, id) ==> IsConsumed(next.1, id)))
      && (!stage.Idle? ==> !next.0.Idle? && next.0.call == stage.call)
      && (stage.Idle? ==> next.0.Idle?)
      && (forall id :: InWindow(next.0, id) ==> InWindow(stage, id) || (stage.AtClock? && !Expired(stage.call.token, clock)))
  {}

  lemma AdvanceKeepsReplica(issuer: Issuer, w: Shared, w': Shared, stage: Stage)
    requires ReplicaFits(issuer, w, stage) && w'.minted == w.minted
    ensures ReplicaFits(issuer, w', Advance(issuer, w.store, w.clock, stage).0)
  {}

  lemma GoKeepsFits(issuer: Issuer, w: Shared, r: nat)
    requires Fits(issuer, w) && r < |w.replicas|
    ensures Fits(issuer, Step(issuer, w, Go(r)))
  {
    var w' := Step(issuer, w, Go(r));
    AdvanceFacts(issuer, w.store, w.clock, w.replicas[r]);
    forall q | 0 <= q < |w'.replicas| ensures ReplicaFits(issuer, w', w'.replicas[q]) {
      assert ReplicaFits(issuer, w, w.replicas[q]);
      if q == r { AdvanceKeepsReplica(issuer, w, w', w.replicas[r]); }
    }
    SameRecordsFit(w, w');
  }

  /** The records fit as long as none changes and the clock does not run backwards. */
  lemma SameRecordsFit(w: Shared, w': Shared)
    requires StoreFits(w) && w'.minted == w.minted && w'.store.Memory? == w.store.Memory?
    requires Recorded(w'.store) == Recorded(w.store)
    requires forall id :: id in Recorded(w.store) ==> Info(w'.store, id) == Info(w.store, id)
    requires w.store.Memory? ==> w.clock <= w'.clock
    ensures StoreFits(w')
  {
    forall i | 0 <= i < |w'.minted| ensures RecordFits(w', w'.minted[i]) {
      assert RecordFits(w, w.minted[i]);
      if w.store.Memory? && Expired(w.minted[i], w.clock) { ExpiredStays(w.minted[i], w.clock, w'.clock); }
    }
  }

  lemma SameReplicasFit(issuer: Issuer, w: Shared, w': Shared)
    requires Fits(issuer, w) && StoreFits(w') && w'.minted == w.minted && w'.replicas == w.replicas
    ensures Fits(issuer, w')
  {
    forall r | 0 <= r < |w'.replicas| ensures ReplicaFits(issuer, w', w'.replicas[r]) {
      assert ReplicaFits(issuer, w, w.replicas[r]);
    }
  }

  lemma PresentKeepsFits(issuer: Issuer, w: Shared, r: nat, c: Call)
    requires Fits(issuer, w) && LegalMove(issuer, w, Present(r, c))
    ensures Fits(issuer, Step(issuer, w, Present(r, c)))
  {
    var w' := Step(issuer, w, Present(r, c));
    forall q | 0 <= q < |w'.replicas| ensures ReplicaFits(issuer, w', w'.replicas[q]) {
      if q != r { assert ReplicaFits(issuer, w, w.replicas[q]); }
    }
    SameRecordsFit(w, w');
  }

  /** A purge not ahead of the clock forgets only expired tokens. */
  lemma PurgeKeepsFits(issuer: Issuer, w: Shared, nowIso: string)
    requires Fits(issuer, w) && LegalMove(issuer, w, PurgeUpTo(nowIso))
    ensures Fits(issuer, Step(issuer, w, PurgeUpTo(nowIso)))
  {
    var w' := Step(issuer, w, PurgeUpTo(nowIso));
    forall i | 0 <= i < |w'.minted| ensures RecordFits(w', w'.minted[i]) {
      assert RecordFits(w, w.minted[i]);
      PurgedHasExpired(w, nowIso, i);
    }
    SameReplicasFit(issuer, w, w');
  }

  lemma PurgedHasExpired(w: Shared, nowIso: string, i: nat)
    requires i < |w.minted| && RecordFits(w, w.minted[i])
    requires w.store.Memory? ==> !StrLess(Iso(w.clock), nowIso)
    ensures w.store.Memory? && w.minted[i].tokenId in ExpiredIds(w.store, nowIso) ==> Expired(w.minted[i], w.clock)
  {
    if w.store.Memory? && w.minted[i].tokenId in ExpiredIds(w.store, nowIso) {
      PurgedMeansExpired(w.minted[i], w.clock, nowIso);
    }
  }

  lemma MoveKeepsFits(issuer: Issuer, w: Shared, m: Move)
    requires Fits(issuer, w) && LegalMove(issuer, w, m)
    ensures Fits(issuer, Step(issuer, w, m))
  {
    var w' := Step(issuer, w, m);
    match m
    case Present(r, c) => PresentKeepsFits(issuer, w, r, c);
    case Go(r) => GoKeepsFits(issuer, w, r);
    case Mint(t) => MintKeepsFits(issuer, w, t);
    case PurgeUpTo(nowIso) => PurgeKeepsFits(issuer, w, nowIso);
    case RevokeAll(scope) =>
      RevokeScopeEffect(w.store, scope);
      SameRecordsFit(w, w');
      SameReplicasFit(issuer, w, w');
    case _ =>
      SameRecordsFit(w, w');
      SameReplicasFit(issuer, w, w');
  }

  // ---------- a closed token stays closed ----------

  /** An expired token is not let past the clock again. */
  lemma WindowStaysEmpty(issuer: Issuer, w: Shared, r: nat, id: string)
    requires Sound(issuer) && Fits(issuer, w) && r < |w.replicas|
    requires ExpiredAs(w, id) && NoneInWindow(w, id)
    ensures NoneInWindow(Step(issuer, w, Go(r)), id)
  {
    var stage := w.replicas[r];
    assert ReplicaFits(issuer, w, stage);
    AdvanceFacts(issuer, w.store, w.clock, stage);
    if stage.AtClock? && stage.call.token.tokenId == id {
      var j :| 0 <= j < |w.minted| && SameGrant(w.minted[j], stage.call.token);
      assert Expired(stage.call.token, w.clock);
    }
  }

  lemma GoneStaysOnGo(issuer: Issuer, w: Shared, r: nat, id: string)
    requires Sound(issuer) && Fits(issuer, w) && r < |w.replicas| && Gone(w, id)
    ensures Gone(Step(issuer, w, Go(r)), id)
  {
    AdvanceFacts(issuer, w.store, w.clock, w.replicas[r]);
    if w.store.Memory? { WindowStaysEmpty(issuer, w, r, id); }
  }

  lemma GoneStaysOnMint(issuer: Issuer, w: Shared, t: Token, id: string)
    requires LegalMove(issuer, w, Mint(t)) && MintedAs(w.minted, id) && Gone(w, id)
    ensures Gone(Step(issuer, w, Mint(t)), id)
  {
    var w' := Step(issuer, w, Mint(t));
    forall i | 0 <= i < |w'.minted| && w'.minted[i].tokenId == id && w.store.Memory? ensures Expired(w'.minted[i], w'.clock) {
      assert i < |w.minted|;
    }
  }

  lemma GoneStaysOnTick(w: Shared, now: Instant, id: string)
    requires (w.store.Memory? ==> w.clock <= now) && Gone(w, id)
    ensures Gone(w.(clock := now), id)
  {
    forall i | 0 <= i < |w.minted| && w.minted[i].tokenId == id && w.store.Memory? ensures Expired(w.minted[i], now) {
      ExpiredStays(w.minted[i], w.clock, now);
    }
  }

  lemma GoneStays(issuer: Issuer, w: Shared, m: Move, id: string)
    requires Sound(issuer) && Fits(issuer, w) && LegalMove(issuer, w, m) && MintedAs(w.minted, id) && Gone(w, id)
    ensures Gone(Step(issuer, w, m), id)
  {
    match m
    case Go(r) => GoneStaysOnGo(issuer, w, r, id);
    case Mint(t) => GoneStaysOnMint(issuer, w, t, id);
    case Tick(now) => GoneStaysOnTick(w, now, id);
    case RevokeAll(scope) => RevokeScopeEffect(w.store, scope);
    case _ =>
  }

  /** A mark goes only with the record, in a purge. */
  lemma MarkStays(issuer: Issuer, w: Shared, m: Move, mark: Mark, id: string)
    requires LegalMove(issuer, w, m) && Shuts(mark, w.store, id) && MintedAs(w.minted, id)
    ensures Shuts(mark, Step(issuer, w, m).store, id) || (m.PurgeUpTo? && id in ExpiredIds(w.store, m.nowIso))
  {
    match m
    case Go(r) => AdvanceFacts(issuer, w.store, w.clock, w.replicas[r]);
    case RevokeAll(scope) => RevokeScopeEffect(w.store, scope);
    case _ =>
  }

  /** A purge that drops a mark with nobody in the window leaves the token gone. */
  lemma QuietPurgeLeavesGone(issuer: Issuer, w: Shared, nowIso: string, id: string)
    requires Fits(issuer, w) && LegalMove(issuer, w, PurgeUpTo(nowIso)) && id in ExpiredIds(w.store, nowIso)
    requires w.store.Memory? ==> NoneInWindow(w, id)
    ensures Gone(Step(issuer, w, PurgeUpTo(nowIso)), id)
  {
    forall i | 0 <= i < |w.minted| && w.minted[i].tokenId == id && w.store.Memory? ensures Expired(w.minted[i], w.clock) {
      assert RecordFits(w, w.minted[i]);
      PurgedHasExpired(w, nowIso, i);
    }
  }

  /** Nothing but freeing it reopens a closed token. */
  lemma ClosedStays(issuer: Issuer, w: Shared, m: Move, mark: Mark, id: string)
    requires Sound(issuer) && Fits(issuer, w) && LegalMove(issuer, w, m)
    requires Closed(w, mark, id) && !Frees(w, m, mark, id)
    ensures Closed(Step(issuer, w, m), mark, id)
  {
    if m.Mint? { MintedStays(w.minted, m.token, id); }
    if Gone(w, id) {
      GoneStays(issuer, w, m, id);
    } else {
      MarkStays(issuer, w, m, mark, id);
      if m.PurgeUpTo? && id in ExpiredIds(w.store, m.nowIso) { QuietPurgeLeavesGone(issuer, w, m.nowIso, id); }
    }
  }

  // ---------- winning ----------

  /** An ok for a single-use token is for one that is not closed, and closes it. */
  lemma OkCloses(issuer: Issuer, w: Shared, m: Move)
    requires Sound(issuer) && Fits(issuer, w) && LegalMove(issuer, w, m)
    ensures
      var w' := Step(issuer, w, m);
      w'.oks != w.oks ==>
        && |w'.oks| == |w.oks| + 1 && w'.oks[..|w.oks|] == w.oks
        && var t := w'.oks[|w.oks|];
           t.singleUse ==> (forall mark :: !Closed(w, mark, t.tokenId)) && Closed(w', Use, t.tokenId)
  {
    if m.Go? && Step(issuer, w, m).oks != w.oks {
      assert ReplicaFits(issuer, w, w.replicas[m.replica]);
      if w.replicas[m.replica].call.token.singleUse { ConsumptionCloses(issuer, w, m.replica); }
    }
  }

  lemma ConsumptionCloses(issuer: Issuer, w: Shared, r: nat)
    requires Sound(issuer) && Fits(issuer, w) && r < |w.replicas| && !Resting(w.replicas[r])
    requires w.replicas[r].call.token.singleUse
    requires Advance(issuer, w.store, w.clock, w.replicas[r]).0 == Finished(w.replicas[r].call, Accepted)
    ensures forall mark :: !Closed(w, mark, w.replicas[r].call.token.tokenId)
    ensures Closed(Step(issuer, w, Go(r)), Use, w.replicas[r].call.token.tokenId)
  {
    var stage := w.replicas[r];
    assert ReplicaFits(issuer, w, stage);
    assert stage.AtConsume? && CanConsume(w.store, stage.call.token.tokenId);
    HeldIsMinted(issuer, w, stage);
    OpenToConsume(w, r);
    ConsumeOnce(w.store, stage.call.token.tokenId);
  }

  /** A replica about to consume holds a minted token. */
  lemma HeldIsMinted(issuer: Issuer, w: Shared, stage: Stage)
    requires Sound(issuer) && ReplicaFits(issuer, w, stage) && stage.AtConsume?
    ensures MintedAs(w.minted, stage.call.token.tokenId)
  {
    var i :| 0 <= i < |w.minted| && SameGrant(w.minted[i], stage.call.token);
    assert w.minted[i].tokenId == stage.call.token.tokenId;
  }

  /** A token some replica can consume is not closed. */
  lemma OpenToConsume(w: Shared, r: nat)
    requires r < |w.replicas| && w.replicas[r].AtConsume? && CanConsume(w.store, w.replicas[r].call.token.tokenId)
    ensures forall mark :: !Closed(w, mark, w.replicas[r].call.token.tokenId)
  {
    assert InWindow(w.replicas[r], w.replicas[r].call.token.tokenId);
  }

  // ---------- at most one winner ----------

  ghost predicate OneOkEach(w: Shared) {
    forall i, j :: 0 <= i < j < |w.oks| && w.oks[i].singleUse && w.oks[j].singleUse ==> w.oks[i].tokenId != w.oks[j].tokenId
  }

  /** The token was won before. */
  ghost predicate Won(w: Shared, id: string) {
    exists i :: 0 <= i < |w.oks| && w.oks[i].singleUse && w.oks[i].tokenId == id
  }

  /** No token was won twice, and none that was won is open. */
  ghost predicate WinsClosed(w: Shared) {
    OneOkEach(w) && forall id :: Won(w, id) ==> Closed(w, Use, id)
  }

  lemma MoveKeepsWinsClosed(issuer: Issuer, w: Shared, m: Move)
    requires Sound(issuer) && Fits(issuer, w) && LegalMove(issuer, w, m) && WinsClosed(w)
    requires forall id :: Won(w, id) ==> !Frees(w, m, Use, id)
    ensures WinsClosed(Step(issuer, w, m))
  {
    var w' := Step(issuer, w, m);
    OkCloses(issuer, w, m);
    forall id | Won(w', id) ensures Closed(w', Use, id) {
      var i :| 0 <= i < |w'.oks| && w'.oks[i].singleUse && w'.oks[i].tokenId == id;
      if i < |w.oks| {
        assert w'.oks[i] == w.oks[i] && Won(w, id);
        ClosedStays(issuer, w, m, Use, id);
      }
    }
    NewOkDiffers(w, w');
  }

  /** At most one ok is new, and it is for no token won before. */
  lemma NewOkDiffers(w: Shared, w': Shared)
    requires OneOkEach(w)
    requires w'.oks == w.oks || (|w'.oks| == |w.oks| + 1 && w'.oks[..|w.oks|] == w.oks)
    requires |w'.oks| > |w.oks| && w'.oks[|w.oks|].singleUse ==> !Won(w, w'.oks[|w.oks|].tokenId)
    ensures OneOkEach(w')
  {
    forall i, j | 0 <= i < j < |w'.oks| && w'.oks[i].singleUse && w'.oks[j].singleUse
      ensures w'.oks[i].tokenId != w'.oks[j].tokenId
    {
      assert w'.oks[i] == w.oks[i];
      if j < |w.oks| { assert w'.oks[j] == w.oks[j]; } else { assert !Won(w, w'.oks[j].tokenId); }
    }
  }

  /** No purge of the run forgets the use of a token some replica is about to consume. */
  ghost predicate UsesKept(issuer: Issuer, w: Shared, moves: seq<Move>)
    requires LegalRun(issuer, w, moves)
  {
    forall id :: NoneFreed(issuer, w, moves, Use, id)
  }

  /** Every replica at rest, nothing minted. */
  ghost predicate Initial(w: Shared) {
    && (w.store == Memory(map[], {}, {}) || w.store == Sql(map[]))
    && w.minted == [] && w.oks == [] && forall r :: 0 <= r < |w.replicas| ==> w.replicas[r].Idle?
  }

  lemma {:induction false} RunKeepsWinsClosed(issuer: Issuer, w: Shared, moves: seq<Move>)
    requires Sound(issuer) && Fits(issuer, w) && WinsClosed(w)
    requires LegalRun(issuer, w, moves) && UsesKept(issuer, w, moves)
    ensures Fits(issuer, RunOf(issuer, w, moves)) && WinsClosed(RunOf(issuer, w, moves))
    decreases |moves|
  {
    if moves != [] {
      var w1 := Step(issuer, w, moves[0]);
      forall id ensures !Frees(w, moves[0], Use, id) && NoneFreed(issuer, w1, moves[1..], Use, id) {
        assert NoneFreed(issuer, w, moves, Use, id);
      }
      MoveKeepsFits(issuer, w, moves[0]);
      MoveKeepsWinsClosed(issuer, w, moves[0]);
      RunKeepsWinsClosed(issuer, w1, moves[1..]);
    }
  }

  /** THE race theorem. However many replicas interleave their steps with mints, revocations, ticks and
      purges, no single-use token is ok'd twice: always on the SQL store, whatever the clocks and the
      purge times, and on the in-memory store as long as no purge forgets a use under a replica about to
      consume the token. */
  lemma AtMostOneWinner(issuer: Issuer, w: Shared, moves: seq<Move>)
    requires Sound(issuer) && Initial(w) && LegalRun(issuer, w, moves)
    requires w.store.Sql? || UsesKept(issuer, w, moves)
    ensures OneOkEach(RunOf(issuer, w, moves))
  {
    if w.store.Sql? {
      forall id ensures NoneFreed(issuer, w, moves, Use, id) { SqlFreesNothing(issuer, w, moves, Use, id); }
    }
    RunKeepsWinsClosed(issuer, w, moves);
  }

  // ---------- nobody wins after a committed revoke ----------

  /** No single-use ok for the id was added since there were `n`. */
  ghost predicate NoOkSince(w: Shared, id: string, n: nat) {
    forall i :: n <= i < |w.oks| ==> !(w.oks[i].singleUse && w.oks[i].tokenId == id)
  }

  /** A closed token is never won, unless it is freed. */
  lemma {:induction false} ClosedNeverWins(issuer: Issuer, w: Shared, moves: seq<Move>, mark: Mark, id: string, n: nat)
    requires Sound(issuer) && Fits(issuer, w) && LegalRun(issuer, w, moves)
    requires w.store.Sql? || NoneFreed(issuer, w, moves, mark, id)
    requires Closed(w, mark, id) && n <= |w.oks| && NoOkSince(w, id, n)
    ensures NoOkSince(RunOf(issuer, w, moves), id, n)
    decreases |moves|
  {
    if moves != [] {
      var w1 := Step(issuer, w, moves[0]);
      StepKeepsBackend(issuer, w, moves[0]);
      MoveKeepsFits(issuer, w, moves[0]);
      ClosedStays(issuer, w, moves[0], mark, id);
      NextIsNoOk(issuer, w, moves[0], mark, id, n);
      ClosedNeverWins(issuer, w1, moves[1..], mark, id, n);
    }
  }

  lemma NextIsNoOk(issuer: Issuer, w: Shared, m: Move, mark: Mark, id: string, n: nat)
    requires Sound(issuer) && Fits(issuer, w) && LegalMove(issuer, w, m)
    requires Closed(w, mark, id) && n <= |w.oks| && NoOkSince(w, id, n)
    ensures n <= |Step(issuer, w, m).oks| && NoOkSince(Step(issuer, w, m), id, n)
  {
    var w1 := Step(issuer, w, m);
    OkCloses(issuer, w, m);
    forall i | n <= i < |w1.oks| ensures !(w1.oks[i].singleUse && w1.oks[i].tokenId == id) {
      if i < |w.oks| { assert w1.oks[i] == w.oks[i]; }
    }
  }

  /** Once the revoke of a minted token has committed, no replica wins it, at whatever stage it was; on
      the in-memory store as long as no purge forgets the revocation under a replica about to consume. */
  lemma NoneWinsAfterRevoke(issuer: Issuer, w: Shared, id: string, moves: seq<Move>)
    requires Sound(issuer) && Fits(issuer, w) && MintedAs(w.minted, id)
    requires LegalRun(issuer, Step(issuer, w, RevokeToken(id)), moves)
    requires w.store.Sql? || NoneFreed(issuer, Step(issuer, w, RevokeToken(id)), moves, Revocation, id)
    ensures NoOkSince(RunOf(issuer, Step(issuer, w, RevokeToken(id)), moves), id, |w.oks|)
  {
    var w1 := Step(issuer, w, RevokeToken(id));
    MoveKeepsFits(issuer, w, RevokeToken(id));
    ClosedNeverWins(issuer, w1, moves, Revocation, id, |w.oks|);
  }

  /** The mark a token has once its scope is revoked. */
  function MarkOf(s: TokenStore, id: string): Mark {
    if IsConsumed(s, id) then Use else Revocation
  }

  /** A scope revocation finds only recorded tokens: one the in-memory store has already forgotten
      escapes it when a replica is in the window with it. */
  predicate Escapes(w: Shared, id: string) {
    w.store.Memory? && id !in Recorded(w.store) && CanConsume(w.store, id) && !NoneInWindow(w, id)
  }

  lemma ScopeRevokeMarks(s: TokenStore, scope: Scope, id: string)
    requires id in Recorded(s) && Info(s, id).scope == scope
    ensures Shuts(MarkOf(s, id), RevokeScope(s, scope), id)
  {
    RevokeScopeEffect(s, scope);
    assert !IsConsumed(s, id) && !IsRevoked(s, id) ==> id in LiveIn(s, scope);
  }

  /** What the store no longer records keeps its mark, if it had one. */
  lemma ScopeRevokeLeavesUnrecorded(s: TokenStore, scope: Scope, id: string)
    requires id !in Recorded(s)
    ensures var s' := RevokeScope(s, scope);
            id !in Recorded(s') && s'.Sql? == s.Sql? && (s.Memory? && !CanConsume(s, id) ==> Shuts(MarkOf(s, id), s', id))
  {}

  lemma ScopeRevokeCloses(issuer: Issuer, w: Shared, scope: Scope, i: nat)
    requires Fits(issuer, w) && i < |w.minted| && TokenScope(w.minted[i]) == scope && !Escapes(w, w.minted[i].tokenId)
    ensures Closed(Step(issuer, w, RevokeAll(scope)), MarkOf(w.store, w.minted[i].tokenId), w.minted[i].tokenId)
  {
    var id := w.minted[i].tokenId;
    var w1 := Step(issuer, w, RevokeAll(scope));
    assert RecordFits(w, w.minted[i]) && w1.minted[i].tokenId == id;
    if id in Recorded(w.store) {
      ScopeRevokeMarks(w.store, scope, id);
    } else {
      ScopeRevokeLeavesUnrecorded(w.store, scope, id);
      if w.store.Memory? { assert ExpiredAs(w1, id); }
    }
  }

  /** The same for every token of a revoked scope that does not escape the revocation. */
  lemma NoneWinsAfterScopeRevoke(issuer: Issuer, w: Shared, scope: Scope, i: nat, moves: seq<Move>)
    requires Sound(issuer) && Fits(issuer, w) && i < |w.minted| && TokenScope(w.minted[i]) == scope
    requires LegalRun(issuer, Step(issuer, w, RevokeAll(scope)), moves)
    requires
      var id := w.minted[i].tokenId;
      w.store.Sql?
      || (!Escapes(w, id) && NoneFreed(issuer, Step(issuer, w, RevokeAll(scope)), moves, MarkOf(w.store, id), id))
    ensures NoOkSince(RunOf(issuer, Step(issuer, w, RevokeAll(scope)), moves), w.minted[i].tokenId, |w.oks|)
  {
    var id := w.minted[i].tokenId;
    MoveKeepsFits(issuer, w, RevokeAll(scope));
    ScopeRevokeCloses(issuer, w, scope, i);
    ClosedNeverWins(issuer, Step(issuer, w, RevokeAll(scope)), moves, MarkOf(w.store, id), id, |w.oks|);
  }
}
