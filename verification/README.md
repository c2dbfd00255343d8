# Earned autonomy: a verified model

This project models the earned-autonomy control plane: agents propose workflow events, a policy
engine decides, decisions that grant come with a signed, short-lived, single-use capability token, an
enforcement point performs an action only under such a token, human decisions build trust, trust
earns delegation rules, incidents take everything back, and a signed hash chain records it all. It
proves what the system promises over whole runs.

`dafny verify dfyconfig.toml` checks everything.

## How it is built

- `Json`, `Utf8`, `Canonical`, `CanonicalProperties`: JSON values with Python's comparison, the
  canonical encoding and a strict parser for it. `Instants`: UTC instants as `isoformat` prints them.
- `Ontology`, `Models`, `Signing`, `Conditions`, `Policy`, `Tokens`: the tables, records, guards and
  the policy engine. `JsonLaws`, `ConditionLaws` and `PolicyProperties` say what comparisons, conditions
  and decisions amount to, without their code.
- `Wilson`, `Trust`, `Recommendations`, `RecommenderProperties`: trust arithmetic over exact reals.
- `TokenStates` is the capability state protocol as functions on two representations, in-memory sets
  and table rows; `CapabilityStores` and `CapabilityService` are the classes that implement it.
- `Planes` gives every operation of the control plane as a function on one state; the classes in
  `ControlPlane`, `MemoryStore`, `Trust`, `CapabilityService` and `Enforcement` are proved to perform
  these functions. `Machine` runs them in any order, with clock ticks, purges and presentations of
  tokens in between; `Provenance`, `Quarantine`, `Ceilings`, `UsableOnce`, `Accountability`,
  `TrustAccounting` and `EarningLoop` prove what holds over all its runs, for both stores.
  `OperationLaws` says what each single operation answers and leaves alone.
- `Race` takes one verification apart into its reads and writes and interleaves any number of them;
  `RaceLimits` says exactly where the in-memory store stops short of the SQL store.
- `LedgerRecords` and `AuditLedger` are the hash chain; `LedgerTables` and `SqlAuditLedger` the
  shared table, with any number of replicas appending under a lock.

## Readings worth knowing

- What surrounds the system is a parameter: the clock, fresh ids, the classifier's risk, the square
  root the Wilson bound takes, which of several matching rules a store returns first, the rendered
  audit payloads. In `Machine` the clock never runs backwards and a purge is
  not ahead of it; `Race` asks that only of the in-memory store. Minted ids are new.
- Signatures are ideal: a signature is identified with the key and message it was made for, and a
  token whose signature verifies carries the payload of a minted one. Hashes are free of collisions,
  and therefore of no fixed length.
- `docs/TRUST_MODEL.md` says that high-risk classes never relax on their own; the code recommends
  level 4 for them after 60 decisions (`RecommenderProperties.SpotlessBreakpoints`). The model follows
  the code.
- A comment in `recommendations.py` calls the sample sizes clean decisions; the code compares them
  with all decisions. The model follows the code.
- A decision that is not clean can raise a recommendation in a second way besides completing a sample
  size: it dilutes the edit rate. `RecommenderProperties.RejectionCanRaise` gives the numbers,
  `RecommenderProperties.NonCleanRaisesOnlyByOpening` the exact condition.
- The rungs are not monotone: work that executes nothing is allowed at stored levels 0 to 2 and needs
  approval at level 3 (`PolicyProperties.RaisingTakesAway` says when a higher level grants less).
- Separation of duties leaves out commercial positions, of the same rank as the classes it covers
  (`Ontology.DutiesByRank`).
- An incident on an agent that is not registered revokes tokens but leaves rules active, and outside
  strict mode its next proposal is granted as before
  (`Quarantine.IncidentOnUnknownAgentChangesNothing`).
- An event that declares a consequence rank above its class gets a token it cannot use, and so does
  one whose rule has a condition on a key the client derives that fails there
  (`UsableOnce.FirstUse`).
- On the in-memory store a purge between one verification's clock read and its consumption can let a
  used token be won again (`RaceLimits.DoubleUseIsReachable`).

## Model

| member | source | states |
|---|---|---|
| Race.AtMostOneWinner | earned_autonomy/core/capability.py:102-164 | In every interleaving of any number of replicas verifying step by step with mints, revocations, ticks and purges, no single-use token is ok'd twice: on the SQL store whatever the clocks and purge times, on the in-memory store as long as no purge not ahead of a monotone clock forgets the use of a token that a replica past its clock read is about to consume |
| RaceLimits.OneWinnerExactly | earned_autonomy/core/capability_store.py:64-101 | The boundary, on either store: a move leaves at-most-one standing for everything that follows exactly when it frees no token already won; only a purge of the in-memory store under a replica in the window does |
| Race.NoneWinsAfterRevoke | earned_autonomy/core/capability_store.py:165-193 | Once the revoke of a minted token committed, no replica wins it any more, at whatever stage it was: on the SQL store always, on the in-memory store as long as no purge forgets the revocation under such a replica |
| Race.NoneWinsAfterScopeRevoke | earned_autonomy/core/capability_store.py:202-217 | The same for every token of a revoked scope, where the in-memory store must also not have forgotten the token under such a replica before |
| RaceLimits.ScopeRevokeMissesExactly | earned_autonomy/core/capability_store.py:83-91 | A token of a scope just revoked can still be won exactly when the in-memory store had forgotten it, unused, under a replica in the window |
| RaceLimits.PurgeReopensExactly | earned_autonomy/core/capability_store.py:93-101 | After a purge a used or revoked token can be won again exactly when the store is the in-memory one, the purge dropped it, and a replica bound to consume it was past its clock read |
| RaceLimits.DoubleUseIsReachable | earned_autonomy/core/capability_store.py:64-101 | A legal run from the start, fifteen moves of two replicas, in which an in-memory token is won twice |
| RaceLimits.WindowWins | earned_autonomy/core/capability.py:125-162 | A replica past its clock read whose checks pass wins a token that can be consumed by its own moves alone |
| Race.MoveKeepsFits | earned_autonomy/core/capability.py:115-164 | Every legal move keeps the invariant: records match minted tokens, the in-memory store forgets only expired ones, nobody past the signature check holds a token that was not minted |
| Race.OkCloses | earned_autonomy/core/capability.py:152-162 | An ok for a single-use token is for one that is open, and closes it |
| Race.ClosedStays | earned_autonomy/core/capability_store.py:64-101 | A used, revoked or vanished token stays closed under every legal move that does not free it |
| Race.UninterruptedIsVerifyForAction | earned_autonomy/core/capability.py:102-164 | The step machine run without interference is `verify_for_action`, result and store |
| TokenStates.StoresIndistinguishable | earned_autonomy/core/capability_store.py:48-223 | On every history whose issued ids are new and whose consumes and revokes go to recorded ids, the in-memory sets and the table rows give the same reply to every operation |
| TokenStates.AgreeStep | earned_autonomy/core/capability_store.py:60-101 | One operation keeps the two stores in agreement, reply included, exactly when it touches only ids both know |
| TokenStates.FreshStoresAgree | earned_autonomy/core/capability_store.py:53-58 | Two empty stores agree |
| TokenStates.RevokeScopeEffect | earned_autonomy/core/capability_store.py:83-91 | Revoking a scope revokes exactly its recorded tokens that are not used up, and counts those newly revoked; no other token, mark or record changes |
| TokenStates.RevokeEffect | earned_autonomy/core/capability_store.py:75-77 | Revoking marks one id, which the SQL store must have a row of, and nothing else |
| TokenStates.RecordEffect | earned_autonomy/core/capability_store.py:60-62 | Recording files one id and marks nothing; the SQL store keeps a row it has |
| TokenStates.PurgeEffect | earned_autonomy/core/capability_store.py:93-101 | A purge forgets exactly the tokens whose printed expiry sorts before the time, marks included |
| OperationLaws.PurgeDropsExpired | earned_autonomy/core/capability_store.py:93-101 | A purge at a printed time keeps exactly the tokens that do not expire before that instant |
| TokenStates.ConsumeOnce | earned_autonomy/core/capability_store.py:64-69 | A consumption succeeds exactly on an id neither used nor revoked, and recorded on the SQL store; it marks that id, cannot be repeated and affects no other token |
| CapabilityStores.InMemoryCapabilityStore.RecordIssued | earned_autonomy/core/capability_store.py:60-62 | The issued record is on file |
| CapabilityStores.InMemoryCapabilityStore.TryConsume | earned_autonomy/core/capability_store.py:64-69 | Succeeds exactly on ids neither consumed nor revoked, unknown ones included, and consumes |
| CapabilityStores.InMemoryCapabilityStore.IsConsumed | earned_autonomy/core/capability_store.py:71-73 | Reads the consumed set |
| CapabilityStores.InMemoryCapabilityStore.Revoke | earned_autonomy/core/capability_store.py:75-77 | Revokes, recorded or not |
| CapabilityStores.InMemoryCapabilityStore.IsRevoked | earned_autonomy/core/capability_store.py:79-81 | Reads the revoked set |
| CapabilityStores.InMemoryCapabilityStore.RevokeScope | earned_autonomy/core/capability_store.py:83-91 | Revokes and counts exactly the live tokens of the scope |
| CapabilityStores.InMemoryCapabilityStore.ScanScope | earned_autonomy/core/capability_store.py:86-90 | The loop finds exactly the recorded, unconsumed, unrevoked tokens of the scope |
| CapabilityStores.InMemoryCapabilityStore.PurgeExpired | earned_autonomy/core/capability_store.py:93-101 | Drops and counts exactly the records whose printed expiry is before the given time |
| CapabilityStores.SqlCapabilityStore.RecordIssued | earned_autonomy/core/capability_store.py:151-163 | A second insert under an id changes nothing |
| CapabilityStores.SqlCapabilityStore.TryConsume | earned_autonomy/core/capability_store.py:165-181 | The conditional update succeeds exactly on a present row that is neither consumed nor revoked |
| CapabilityStores.SqlCapabilityStore.IsConsumed | earned_autonomy/core/capability_store.py:183-188 | A missing row is not consumed |
| CapabilityStores.SqlCapabilityStore.Revoke | earned_autonomy/core/capability_store.py:190-193 | Revokes a present row, ignores an unknown id |
| CapabilityStores.SqlCapabilityStore.IsRevoked | earned_autonomy/core/capability_store.py:195-200 | A missing row is not revoked |
| CapabilityStores.SqlCapabilityStore.RevokeScope | earned_autonomy/core/capability_store.py:202-217 | Revokes and counts exactly the live rows of the scope |
| CapabilityStores.SqlCapabilityStore.PurgeExpired | earned_autonomy/core/capability_store.py:219-223 | Deletes and counts exactly the expired rows |
| ConditionLaws.AcceptedExactly | earned_autonomy/core/capability.py:102-164 | A verification is ok exactly when the token is validly signed, unrevoked, unexpired and not used up, the action is in its scope, declares no rank or a number up to the token's, and its context meets every condition |
| ConditionLaws.RefusedForTheReason | earned_autonomy/core/capability.py:115-162 | Every refusal gives a reason that is true of the token and the action; an error only comes out of a rank or condition that is not met |
| ConditionLaws.NumericRange | earned_autonomy/core/capability.py:140-145 | A range condition with numbers for bounds: nothing binds without a bound, an absent value fails, a number passes exactly inside the inclusive bounds, any other value cannot be compared and raises |
| ConditionLaws.MeetsRange | earned_autonomy/core/models.py:316-322 | Such a range is met exactly by the numbers inside it, or by anything when it has no bound |
| ConditionLaws.MeetsMember | earned_autonomy/core/models.py:323-328 | A list condition is met exactly by the values equal to a member, a plain one by the values equal to it, True counting as 1 and key order as nothing |
| ConditionLaws.CheckOneMeans | earned_autonomy/core/models.py:314-329 | A condition holds exactly when its value meets it, and raises only for a range on a value that is there |
| ConditionLaws.FirstFailureDecides | earned_autonomy/core/capability.py:137-150 | The first condition that does not hold decides between refusing and raising |
| ConditionLaws.RuleMatchesExactly | earned_autonomy/core/models.py:305-329 | A rule matches an event exactly when it is active, of the event's agent, workflow and class, and the event's metadata meets every condition |
| ConditionLaws.RankCheckMeans | earned_autonomy/core/capability.py:134-136 | The rank check passes without a declared rank or with a number up to the token's, refuses a larger number, raises otherwise |
| JsonLaws.PyEqIsSame | earned_autonomy/core/models.py:323-328 | Python's equality of JSON values is equality as scalars, lists and mappings with True written as 1 and False as 0, at every depth |
| JsonLaws.OrderMeans | earned_autonomy/core/models.py:319-322 | Python's order compares numbers as integers and texts by their first difference, and raises on everything else but two lists |
| JsonLaws.ListOrder | earned_autonomy/core/models.py:319-322 | Two lists compare by their first unequal members, a proper prefix first |
| JsonLaws.StrLessMeans | earned_autonomy/core/models.py:319-322 | Text order: a proper prefix, or the smaller character at the first difference, comes first |
| Capabilities.MintageSays | earned_autonomy/core/capability.py:49-79 | A minted token carries the scope, conditions, rank, times, nonce and issuer it was asked for, and its signature verifies |
| Capabilities.CanonicalIssuerIsSound | earned_autonomy/core/models.py:502-518 | The canonical signing payload leaves the signature out and pins down the grant |
| Tokens.PayloadDeterminesGrant | earned_autonomy/core/models.py:502-518 | Equal signing payloads mean equal tokens up to signature and condition key order |
| Tokens.DictHoldsToken | earned_autonomy/enforcement/sdk.py:106-109 | The dict a token is sent as holds its claims under their names, and the claims of no other token, so the client gets its own token back |
| CapabilityServices.CapabilityService.Mint | earned_autonomy/core/capability.py:49-79 | The token is the signed mintage of its arguments and is on record |
| CapabilityServices.CapabilityService.VerifyForAction | earned_autonomy/core/capability.py:102-164 | Early returns and loop accept exactly what `ConditionLaws.AcceptedExactly` says of the stored state, and compute the specified reason and new store otherwise |
| CapabilityServices.CapabilityService.Revoke | earned_autonomy/core/capability.py:81-82 | Revokes in the shared state |
| CapabilityServices.CapabilityService.RevokeScope | earned_autonomy/core/capability.py:84-91 | Revokes the scope in the shared state and reports how many tokens were live |
| CapabilityServices.CapabilityService.PurgeExpired | earned_autonomy/core/capability.py:96-100 | Purges the shared state and reports how many records went |
| Instants.OrdinalOfDate | earned_autonomy/core/capability_store.py:32-33 | Walking the calendar day by day agrees with the closed form of the Gregorian ordinal, so printed dates are the real ones |
| Instants.IsoText | earned_autonomy/core/capability.py:59-60 | The printed instant, character by character: padded date, T, time of day, six fractional digits only when there are microseconds, +00:00 |
| Instants.PadReads | earned_autonomy/core/capability.py:59-60 | Each printed number is all digits and reads back as itself |
| Instants.IsoOrder | earned_autonomy/core/capability_store.py:93-101 | For printed UTC instants, with six fractional digits or none, string order is time order, and equal texts are equal instants |
| Instants.FromIso | earned_autonomy/core/capability.py:118-121 | Parsing inverts printing |
| Machine.PurgedMeansExpired | earned_autonomy/core/capability.py:96-123 | A token purged by a time not ahead of the clock is one verification already rejects as expired |
| Machine.PurgeAges | earned_autonomy/core/capability_store.py:93-101 | Such a purge drops only expired tokens and revives none |
| Provenance.ProvenanceOfRuns | earned_autonomy/core/control_plane.py:120-157 | In every run: executions go one to one to minted tokens, tokens one to one to accepted events, events one to one to claimed nonces, with agent, workflow and class equal along the way; counts ordered accordingly |
| Provenance.StepKeepsValid | earned_autonomy/core/control_plane.py:81-328 | Every step of control plane, enforcement point, clock and purge keeps the system invariant |
| Provenance.RunKeepsValid | earned_autonomy/core/control_plane.py:81-328 | So does every run |
| Provenance.ProvenanceCounts | earned_autonomy/enforcement/pep.py:52-69 | Executions <= tokens <= accepted events = nonces |
| Provenance.AcceptedTokenWasMinted | earned_autonomy/core/capability.py:115-116 | A token that verifies grants what a minted token grants |
| Provenance.DeadIsRefused | earned_autonomy/core/capability.py:118-164 | A consumed, revoked or expired token is refused whatever is presented with it |
| Provenance.VerificationConsumes | earned_autonomy/core/capability.py:155-162 | An accepted presentation consumes its token; a refused one changes nothing |
| Quarantine.IncidentQuarantines | earned_autonomy/core/control_plane.py:272-314 | After an incident on a registered agent, whatever levels were stored, until a rule for the scope is approved or the agent is registered anew above level 3 for it: no earlier token ever executes, no execution request in the scope is granted, and every execution in the scope runs on a later token for a request that executes nothing. Assumes boundaries that do not themselves grant |
| Quarantine.IncidentShuts | earned_autonomy/core/control_plane.py:272-314 | The incident itself leaves every token of the scope unusable, every rule of it inactive, and the stored level for it at most 3 |
| Quarantine.IncidentDemotesScope | earned_autonomy/core/control_plane.py:281-289 | An incident lowers the stored level of its own scope to at most 3 and no other level of any agent |
| Quarantine.IncidentShutsRulesOnlyIfRegistered | earned_autonomy/core/control_plane.py:279-300 | Rules of the scope end up inactive exactly when the agent is registered or none was active |
| Quarantine.IncidentOnUnknownAgentChangesNothing | earned_autonomy/core/control_plane.py:279-300 | For an unregistered agent an incident leaves rules and every later decision as they were |
| Quarantine.ShutMintsNothing | earned_autonomy/core/policy.py:80-119 | With a stored level up to 3 for the scope and no active rule an execution request in it gets no token |
| Quarantine.DeadStays | earned_autonomy/core/capability_store.py:64-101 | No step revives a token |
| Quarantine.RevokedRuleEnds | earned_autonomy/core/control_plane.py:248-268 | Whatever happens after a rule was revoked, short of approving it again, it matches no event and no token of its scope minted before is usable |
| Quarantine.RunKeepsRulesKeyed | earned_autonomy/storage/memory.py:46-47 | Every stored rule is filed under its own id, in every run |
| Ceilings.CeilingsBeatTrust | earned_autonomy/core/ontology.py:84-89 | Whatever levels, rules and history: no critical execution request ever gets a token, and under the default boundaries no class of high or critical base risk does |
| Ceilings.NothingRiskyExecutes | earned_autonomy/core/policy.py:194-236 | Under the default boundaries no run ever executes an action of high or critical base risk |
| Ceilings.LevelsAndRulesStay | earned_autonomy/core/control_plane.py:221-246 | If agents register with levels up to 3, all stored levels stay there forever, and no stored rule is ever above its ceiling |
| Ceilings.ExecutionGrantsComeFromLiveRules | earned_autonomy/core/control_plane.py:112-157 | At any point of any run a token for an execution request is minted under a stored, active, matching rule at level 4 or more, at or below the ceiling, with every guard known and clear |
| Ceilings.ProposeMints | earned_autonomy/core/control_plane.py:137-157 | A proposal mints one token or none, exactly when its decision grants |
| OperationLaws.ProposalAdmits | earned_autonomy/core/control_plane.py:91-122 | A proposal stores its event and claims its nonce exactly when the agent is registered and active, or unknown outside strict mode, the event authentic where that is asked and its nonce new; every denial gives a true reason and leaves the state as it was, a newly created agent aside |
| OperationLaws.ProposalEnrolls | earned_autonomy/core/control_plane.py:94-103 | Only outside strict mode a proposal creates an agent: the event owner's, active, without key, at the bottom of the ladder for everything, approved for this workflow alone; other agents stay |
| OperationLaws.ProposalAnswers | earned_autonomy/core/control_plane.py:124-157 | An accepted event is decided by the policy on the stored level, the looked-up rule and the agent's workflows; a token comes exactly with a decision that grants, for the event's scope, at its class's rank, under the rule's conditions, for one use, until the time-to-live of that decision, and is on record so |
| OperationLaws.AgentWorkflowsGuard | earned_autonomy/core/control_plane.py:129-130 | For an event without a list of its own the workflow guard fires exactly when the agent has approved workflows and this is not one |
| OperationLaws.RegistersExactly | earned_autonomy/core/control_plane.py:81-86 | An agent is stored unless strict mode misses its key |
| OperationLaws.SubmitAnswers | earned_autonomy/core/control_plane.py:179-212 | A decision is refused for an unknown event, an owner's approval where somebody else's is asked for, or an event already decided, in that order; otherwise its answer is the recommendation asked for right afterwards. No other scope's record changes, and nothing but records |
| OperationLaws.RecommendReads | earned_autonomy/core/control_plane.py:318-328 | A recommendation is the engine's on the stored level and record, and changes neither |
| OperationLaws.StoredLevels | earned_autonomy/core/models.py:159-173 | The level read for a workflow and class is the one last set for that pair, 0 where none was |
| OperationLaws.ApprovalAnswers | earned_autonomy/core/control_plane.py:216-246 | A rule is above its ceiling exactly beyond level 5 at consequence rank 3, 4 at ranks 4 and 5, 3 from rank 6, and 0 for legal consequences; an owner may not delegate from rank 4 on, two kinds of class aside; anything else is stored, alone |
| OperationLaws.IncidentTouches | earned_autonomy/core/control_plane.py:272-314 | An incident adds one to its scope's record and to a registered agent, ends exactly the active rules of the scope of a registered agent and revokes exactly the scope's tokens not used up; other records, agents, rules and tokens stay |
| OperationLaws.RevocationTouches | earned_autonomy/core/control_plane.py:248-268 | Revoking a rule deactivates that rule alone, with the reason, and revokes its scope's tokens that are not used up |
| OperationLaws.ContextLaw | earned_autonomy/enforcement/sdk.py:93-95 | In the client's context an override wins over the metadata, and the class's rank stands in where neither declares one |
| UsableOnce.FirstUse | earned_autonomy/core/capability.py:102-164 | In any reachable state an unexpired, unrevoked, unused minted token presented for its own event without overrides is accepted exactly when the event declares no rank above its class and the rule's conditions on keys the client derives, if any, hold for the derived values |
| UsableOnce.LaterUses | earned_autonomy/core/capability.py:155-162 | After an accepted presentation no later one with that token id is accepted, in any context, after any further steps |
| UsableOnce.DeadForever | earned_autonomy/core/capability.py:118-162 | A dead token is refused after every further run |
| UsableOnce.ConditionsCarryOver | earned_autonomy/enforcement/sdk.py:87-95 | Conditions that matched at proposal hold for the context the client builds exactly when those on the two derived keys do |
| UsableOnce.FreshGrantIsAlive | earned_autonomy/core/capability.py:59-78 | With positive lifetimes a freshly proposed token is usable |
| UsableOnce.RunKeepsUsable | earned_autonomy/core/control_plane.py:147-155 | Every token of every run carries the rank of its class and the conditions of the rule behind it, and its event met them |
| Accountability.AcceptedEventsAreSigned | earned_autonomy/core/control_plane.py:105-122 | In strict mode every event a run accepts was proposed with a signature that the key then registered for its agent verifies |
| Accountability.ExecutionsAreSigned | earned_autonomy/core/control_plane.py:105-122 | Hence every execution in strict mode goes back to an event its agent signed |
| Accountability.OwnersNeverCount | earned_autonomy/core/control_plane.py:184-195 | For a class that separates duties no run counts more approvals than people other than the agent's owner gave |
| TrustAccounting.TrustCountsEvents | earned_autonomy/core/trust.py:45-76 | In every run each key counts its decided event ids, all distinct and all of accepted events of that scope; the grand total stays within the accepted events; with fresh event ids no id counts under two keys |
| TrustAccounting.StepKeepsAccounts | earned_autonomy/core/control_plane.py:179-212 | Every step keeps those accounts |
| TrustAccounting.GrandTotalCountsPairs | earned_autonomy/core/models.py:377-385 | The sum of all totals counts each pair of key and event id once |
| TrustAccounting.CountersAreHistogram | earned_autonomy/core/trust.py:45-82 | After any run each counter of a scope has grown by exactly the counted outcomes of its kind, and its incidents by the incidents recorded for it |
| TrustAccounting.SubmitCountsOnce | earned_autonomy/core/control_plane.py:179-212 | A submitted decision moves its own key's total by one or nothing, no other key, and in a reachable state is never left half done |
| TrustAccounting.ReusedIdCountsAgain | earned_autonomy/core/trust.py:52-56 | Freshness is needed: an id counted under one key is counted under another as soon as a later event carries it, unless the owner approves |
| TrustAccounting.RadicandNeverNegative | earned_autonomy/core/models.py:341-354 | Clean approvals never exceed decisions, so the square root always exists |
| Trust.ApplyKeepsHonest | earned_autonomy/core/trust.py:45-76 | A decision keeps every record's total equal to its distinct decided ids and moves only its own key |
| Trust.ApplyCountsOnce | earned_autonomy/core/trust.py:52-76 | A decision counts once per event id, is clean only if clean, and repeating it changes nothing |
| Trust.DelegationMemory.Get | earned_autonomy/core/trust.py:37-43 | Reads a key, recording a zero record on first use |
| Trust.DelegationMemory.ApplyDecision | earned_autonomy/core/trust.py:45-76 | Counts the decision or reports the replay |
| Trust.DelegationMemory.RecordIncident | earned_autonomy/core/trust.py:78-82 | Adds an incident to the key |
| Trust.DelegationMemory.RecordSampleReview | earned_autonomy/core/trust.py:84-88 | Adds a sample review to the key |
| Wilson.Threshold | earned_autonomy/core/models.py:341-354 | For 0 <= s <= n, n > 0, 0 <= t < 1 the bound is at least t exactly when s >= n t and (s - n t)^2 >= z^2 n t (1 - t) |
| Wilson.Range | earned_autonomy/core/models.py:341-354 | The bound lies in [0, s/n], is below 1, and is 0 only when s is |
| Wilson.ClampIsRedundant | earned_autonomy/core/models.py:354 | In exact reals the clamp at zero does nothing |
| Wilson.SuccessNeverLowers | earned_autonomy/core/models.py:341-354 | One more clean approval never lowers the bound |
| Wilson.FailureNeverRaises | earned_autonomy/core/models.py:341-354 | One more decision that is not clean never raises it |
| Wilson.BoundIsLowerBound | earned_autonomy/core/models.py:341-354 | The root-free description by thresholds, which the recommender's theorems take, says exactly what the formula computes |
| Wilson.RootIsUnique | earned_autonomy/core/models.py:353 | The square root the bound takes is determined |
| Recommendations.Recommend | earned_autonomy/core/recommendations.py:56-104 | The ladder loop from the top, on the bound taken of the record's counts, computes the specified recommendation, of which `RecommenderProperties.RejectionsAndIncidentsPin` and `OtherwiseTheBestRow` say what it is |
| RecommenderProperties.RejectionsAndIncidentsPin | earned_autonomy/core/recommendations.py:67-78 | From any level, with an incident or with a quarter or more rejected after 8, 20 or 60 decisions (10^9 for critical): at most level 3, no rule, confidence 0.99, or without incidents the rejected share capped at 0.9 |
| RecommenderProperties.OtherwiseTheBestRow | earned_autonomy/core/recommendations.py:80-104 | From any level, otherwise: the current level up to the ceiling or the highest open supported row above it, with the trust signal for confidence |
| RecommenderProperties.RowTerms | earned_autonomy/core/recommendations.py:34-54 | What each open row asks for, in whole numbers: decisions, signal, and edits per decision |
| Recommendations.WilsonEngine | earned_autonomy/core/recommendations.py:56-104 | Answers computed with the Wilson bound are answers from the evidence |
| Recommendations.FormulaIsWilson | earned_autonomy/core/models.py:341-354 | The formula with the true square roots is such a bound, for all counts |
| RecommenderProperties.BestRowIsBest | earned_autonomy/core/recommendations.py:82-102 | The chosen row is the highest passing row at or below the ceiling, or none passes |
| RecommenderProperties.GateExcludesRows | earned_autonomy/core/recommendations.py:74-95 | The rejection gate and a passed ladder row never both hold |
| RecommenderProperties.RecommendedIsBestRow | earned_autonomy/core/recommendations.py:56-104 | Without incidents and from level 3 or below the recommendation is the best row, or the current level |
| RecommenderProperties.NeverAboveCeiling | earned_autonomy/core/recommendations.py:106-150 | A recommendation never exceeds the ceiling, proposes a rule exactly when it raises, for its own scope and level, and never with an incident |
| RecommenderProperties.CleanNeverLowers | earned_autonomy/core/recommendations.py:56-104 | Another clean approval never lowers the recommendation |
| RecommenderProperties.NonCleanOpensRow | earned_autonomy/core/recommendations.py:91-95 | A row open after a decision that is not clean was closed before exactly when the decision completed the sample size or diluted a too high edit rate |
| RecommenderProperties.NonCleanRaisesOnlyByOpening | earned_autonomy/core/recommendations.py:91-95 | Such a decision raises the recommendation exactly when it opens a row above everything that passed before, in one of those two ways |
| RecommenderProperties.RejectionCanRaise | earned_autonomy/core/recommendations.py:91-95 | A rejection can raise the recommendation without crossing a sample size: 969 clean and 30 edited approvals of any events, then one rejection |
| RecommenderProperties.SpotlessBreakpoints | earned_autonomy/core/recommendations.py:34-54 | From level 0 an all-clean history earns exactly: 16/29/52/120 decisions for low risk, 20/60 for medium, 60 for high, never for critical |
| EarningLoop.ProposedLevel | earned_autonomy/core/recommendations.py:106-150 | A proposed rule is at level 4 or more, at most the ceiling, above the current level, for the scope asked about, never with an incident; a second approver is asked for exactly for separation-of-duties classes |
| EarningLoop.ProposedRuleAccepted | earned_autonomy/core/control_plane.py:216-246 | Approving a proposed rule succeeds unless a second approver was asked for and the owner of the registered agent approves |
| EarningLoop.ProposedRuleGrants | earned_autonomy/core/policy.py:80-119 | The approved rule, consulted for an execution request outside every boundary, grants exactly when all six of its guards are clear, as a sample review at level 4, with one action in five sampled there and at level 7 |
| EarningLoop.ProposedRuleMatches | earned_autonomy/core/models.py:305-329 | It matches an event of its scope exactly when the event's metadata confirms its evidence |
| EarningLoop.NoProposalAfterIncident | earned_autonomy/core/recommendations.py:68-72 | Once a scope has an incident nothing in any later run proposes a rule or a level above 3 for it |
| Ontology.CeilingByConsequences | earned_autonomy/core/ontology.py:148-152 | The ceiling of a class from its consequences alone: 7 up to rank 2, 5 at rank 3, 4 at ranks 4 and 5, 3 above, 0 for legal consequences |
| Ontology.RiskByRank | earned_autonomy/core/ontology.py:31-55 | Base risk and consequence rank, two tables in the source, agree: low up to 2, medium at 3, high at 4 and 5, critical from 6 |
| Ontology.DutiesByRank | earned_autonomy/core/ontology.py:98-108 | A second approver is asked for exactly from rank 4 on, short of legal consequences and of commercial positions |
| Ontology.NonStateByRank | earned_autonomy/core/ontology.py:118-129 | Looking and drafting is rank 0 or 1 other than sending messages |
| Ontology.MaxRankIsMax | earned_autonomy/core/ontology.py:144-145 | The rank of a class is the highest among its consequences |
| Ontology.CeilingByRisk | earned_autonomy/core/ontology.py:148-152 | Execution can be delegated exactly below critical base risk, beyond sampling exactly at low and medium |
| Models.ScopeKeysDiffer | earned_autonomy/core/models.py:159-168 | No two pairs of workflow and class share a key of the level table, even with colons in workflow ids |
| Policy.EvaluateEvent | earned_autonomy/core/policy.py:57-119 | Boundaries first, then the effective level, then the guards of a rule that grants, compute exactly the specified decision, which the rows of `PolicyProperties` pin down |
| Policy.FirstBoundaryFound | earned_autonomy/core/policy.py:67-78 | A boundary decides exactly when one matches |
| PolicyProperties.StatusByRung | earned_autonomy/core/policy.py:121-192 | Outside every boundary and guard, the lesser of the ceiling and the higher of stored and rule level decides: below 3 only execution needs approval, 3 needs approval, 4 is a sample review at the rule's rate or 20%, 5 is allowed, 6 and 7 escalate an anomaly and allow the rest, at 7 with at least 5% attested; looking and drafting is always allowed |
| PolicyProperties.RaisingTakesAway | earned_autonomy/core/policy.py:157-192 | Raising a stored level takes away a grant exactly when work that executes nothing, fine below 3, meets the approval rung, or an anomaly meets the top two |
| PolicyProperties.GuardsStop | earned_autonomy/core/policy.py:93-107 | A rule that raises the level and whose guards fire only asks for approval, and names what fired |
| PolicyProperties.BoundaryDecides | earned_autonomy/core/policy.py:67-78 | The first boundary in order that matches decides, with the higher of its risk and the classifier's, whatever level and rule |
| PolicyProperties.BoundaryFits | earned_autonomy/core/policy.py:33-39 | A boundary matches by class, if it names any, and by every metadata value it lists |
| PolicyProperties.MaxRiskIsMax | earned_autonomy/core/ontology.py:140-141 | The combined risk is the higher one |
| PolicyProperties.DefaultDecision | earned_autonomy/core/policy.py:194-236 | Under the default boundaries legal consequences are blocked, the rest of critical risk and spending escalated, the rest of high risk held for approval, each by the role its consequences call for, whatever level and rule |
| PolicyProperties.GuardMeanings | earned_autonomy/core/conditions.py:16-44 | What six of the guards look at |
| PolicyProperties.KnownWorkflows | earned_autonomy/core/conditions.py:24-26 | The seventh fires exactly when there is a list of workflows and the event's is not on it |
| PolicyProperties.OtherWorkflowLists | earned_autonomy/core/conditions.py:24-26 | On anything else an event brings along it is quiet for nothing, asks a dict for the key and a text for the part, and raises on a number |
| PolicyProperties.TriggeredConcat | earned_autonomy/core/conditions.py:65-73 | Guards are evaluated in order, each for itself |
| PolicyProperties.TriggeredOne | earned_autonomy/core/conditions.py:66-72 | A known guard reports its name when it fires, an unknown one always, marked as such |
| Policy.DefaultBoundariesCover | earned_autonomy/core/policy.py:194-236 | The default boundaries stop exactly the classes of high and critical base risk, and none of them grants |
| Policy.DefaultsNeverGrant | earned_autonomy/core/policy.py:65-78 | Under them such a class is never granted, whatever level, rule and risk |
| Policy.ExecutionNeedsLevelFour | earned_autonomy/core/policy.py:80-192 | A granted execution request met no boundary, has an effective level from 4 to the ceiling, a clear rule unless its stored level is 4 or more, and is not critical |
| Policy.CeilingIsFinal | earned_autonomy/core/policy.py:90-91 | At or above the ceiling a higher stored level changes no decision |
| Conditions.CheckAllMeansEach | earned_autonomy/core/models.py:314-329 | The condition loop passes exactly when each condition does |
| Conditions.CheckAllReadsKeys | earned_autonomy/core/models.py:314-329 | It depends only on the values under its own keys |
| Conditions.CheckConditions | earned_autonomy/core/capability.py:134-150 | The early-return loop computes that check, errors included |
| Conditions.ClearMeansKnownAndQuiet | earned_autonomy/core/conditions.py:58-73 | No guard fires exactly when every name is a known guard that is clear: unknown names fail closed |
| Conditions.EvaluateGuards | earned_autonomy/core/conditions.py:58-73 | The loop collects the fired guards in order |
| CanonicalProperties.CanonicalBytesDetermineValue | earned_autonomy/crypto/canonical.py:19-27 | Canonical bytes are equal exactly when the values are equal up to key insertion order, at every depth |
| CanonicalProperties.ParserRecovers | earned_autonomy/crypto/canonical.py:19-27 | A strict parser of compact JSON, no leading zeros and no raw control characters, reads the canonical text as the same value with its keys in ascending order at every depth |
| CanonicalProperties.NormalFormsAgree | earned_autonomy/crypto/canonical.py:23 | Sorting keys at every depth forgets insertion order and nothing else |
| Canonical.RenderRoundTrip | earned_autonomy/crypto/canonical.py:21-26 | Parsing a rendered value gives it back and leaves exactly what follows |
| Canonical.CharsRoundTrip | earned_autonomy/crypto/canonical.py:21-26 | String escapes are undone without loss |
| Canonical.EscapeIsShortest | earned_autonomy/crypto/canonical.py:21-26 | Each escape is the shortest text the parser reads as its character, and the only one of that length |
| Utf8.EncodeInjective | earned_autonomy/crypto/canonical.py:27 | Different texts have different UTF-8 bytes |
| LedgerRecords.HashDeterminesRecord | earned_autonomy/core/ledger.py:12-20 | Equal record hashes mean equal records apart from signature and payload key order, and those never change the hash |
| LedgerRecords.HashedDictHolds | earned_autonomy/core/ledger.py:17-20 | What is hashed is the record's dict, every value under its name with hash and signature nulled, and no other record's |
| LedgerRecords.HeadDeterminesHistory | earned_autonomy/core/ledger.py:82-97 | Two ledgers that verify, under whatever keys, share a head hash exactly when they are the same history |
| LedgerRecords.AppendVerifies | earned_autonomy/core/ledger.py:59-77 | A ledger verifies after an append exactly when it did before and signs with the key it verifies with |
| LedgerRecords.PrefixVerifies | earned_autonomy/core/ledger.py:82-97 | Every prefix of a verifying ledger verifies: cutting the tail goes unnoticed |
| LedgerRecords.CheckpointPinsPrefix | earned_autonomy/core/ledger.py:99-109 | For a checkpoint received with a signature that verifies for its fields and that the key has made: a verifying ledger has its hash at its count exactly when it agrees with the original up to there |
| LedgerRecords.ReceivedCheckpointWasEmitted | earned_autonomy/core/ledger.py:99-109 | Such a checkpoint is, field by field, one the ledger emitted: neither a record's nor a token's signature passes for one |
| LedgerRecords.CheckpointSays | earned_autonomy/core/ledger.py:100-107 | A checkpoint carries the sequence, hash and count of its ledger's head, and its signature verifies for just these under the key it was made with |
| LedgerRecords.CheckpointPayloadDetermines | earned_autonomy/core/ledger.py:101-107 | The signed bytes of a checkpoint determine its sequence, head hash and count |
| LedgerRecords.TokenIsNoCheckpoint | earned_autonomy/core/ledger.py:101-107 | No token is signed over a checkpoint's bytes |
| LedgerRecords.CheckpointsRegular | earned_autonomy/core/ledger.py:75-76 | A growing ledger emits one checkpoint at every multiple of the interval, in ascending order, and no other |
| LedgerRecords.AppendKeepsAnchors | earned_autonomy/core/ledger.py:75-76 | Appending keeps earlier checkpoints valid and anchors the new one |
| LedgerRecords.WithoutKeyOnlyPrefixes | earned_autonomy/core/ledger.py:29-31 | With only signatures the key has made, for records, tokens or checkpoints, a verifying ledger is a prefix of the true one |
| LedgerRecords.DigestIsNoObject | earned_autonomy/core/ledger.py:72 | A record's signed text is never a signed token or checkpoint |
| LedgerRecords.ReplayVerifies | earned_autonomy/core/ledger.py:59-97 | A ledger grown by appends verifies exactly when its start does and the keys belong together |
| LedgerRecords.ReplayHoldsEntries | earned_autonomy/core/ledger.py:59-73 | Each appended entry is in the chain once, at its place, unaltered |
| AuditLedgers.AuditLedger.Append | earned_autonomy/core/ledger.py:59-77 | The record extends the chain; a checkpoint is anchored when one is due, so that all anchored ones are the regular ones |
| AuditLedgers.AuditLedger.EmitCheckpoint | earned_autonomy/core/ledger.py:99-109 | Anchors the head's sequence, hash and count under a signature that verifies for just these |
| AuditLedgers.AuditLedger.Verify | earned_autonomy/core/ledger.py:82-97 | The loop accepts exactly the chains whose sequences, links, hashes and signatures all fit |
| LedgerTables.SharedLedgerIsLinear | earned_autonomy/core/ledger_sql.py:94-136 | However replicas interleave lock, read head, insert, commit and abort, the table is contiguous, equals one ledger appending in commit order, and verifies if it did before |
| LedgerTables.InsertNeverCollides | earned_autonomy/core/ledger_sql.py:94-136 | An insert under the lock never meets a taken sequence |
| LedgerTables.VerifiedIsContiguous | earned_autonomy/core/ledger_sql.py:158-172 | A listing that verifies hides no missing row |
| LedgerTables.ListingAt | earned_autonomy/core/ledger_sql.py:138-156 | A contiguous table lists row i at position i |
| SqlAuditLedgers.SqlAuditLedger.Append | earned_autonomy/core/ledger_sql.py:94-136 | One transaction appends exactly what the single ledger would |
| SqlAuditLedgers.SqlAuditLedger.Records | earned_autonomy/core/ledger_sql.py:138-156 | All rows by ascending sequence |
| SqlAuditLedgers.SqlAuditLedger.Verify | earned_autonomy/core/ledger_sql.py:158-172 | Accepts exactly the listings that verify; an accepted table has no gaps |
| SqlAuditLedgers.SqlAuditLedger.Head | earned_autonomy/core/ledger_sql.py:174-183 | Key and hash of the newest row, which is the last of the listing |
| MemoryStores.FirstMatchIsLegal | earned_autonomy/storage/memory.py:52-56 | The first match in insertion order is an answer any store may give |
| MemoryStores.FirstMatchAt | earned_autonomy/storage/memory.py:52-56 | The lookup answers by the first rule in insertion order that matches or cannot be compared |
| MemoryStores.InMemoryStore.AddAgent | earned_autonomy/storage/memory.py:34-35 | Files the agent under its id |
| MemoryStores.InMemoryStore.AddRule | earned_autonomy/storage/memory.py:46-47 | Files the rule under its id; a rule stored again keeps its place |
| MemoryStores.InMemoryStore.MatchingRule | earned_autonomy/storage/memory.py:52-56 | Returns the first matching rule, the error reached before it, or nothing when nothing matches |
| MemoryStores.InMemoryStore.RulesFor | earned_autonomy/storage/memory.py:58-63 | Exactly the stored rules of a scope |
| MemoryStores.InMemoryStore.ClaimNonce | earned_autonomy/storage/memory.py:74-83 | A nonce is claimed exactly once |
| ControlPlanes.EarnedAutonomyControlPlane.RegisterAgent | earned_autonomy/core/control_plane.py:81-86 | Stores the agent unless strict mode misses its key, and logs it |
| ControlPlanes.EarnedAutonomyControlPlane.ProposeEvent | earned_autonomy/core/control_plane.py:90-175 | Performs the specified proposal for a legal rule lookup and logs exactly the proposals that were decided |
| ControlPlanes.EarnedAutonomyControlPlane.Admit | earned_autonomy/core/control_plane.py:91-122 | The checks before the event is stored, in order, with their effects |
| ControlPlanes.EarnedAutonomyControlPlane.Decide | earned_autonomy/core/control_plane.py:124-157 | Decision and token of an accepted event |
| ControlPlanes.EarnedAutonomyControlPlane.SubmitDecision | earned_autonomy/core/control_plane.py:179-212 | Performs the specified count and recommendation; logs three records, one, or none |
| ControlPlanes.EarnedAutonomyControlPlane.RecommendFor | earned_autonomy/core/control_plane.py:318-328 | The recommendation computed with the bound from the stored level and record, logged |
| ControlPlanes.EarnedAutonomyControlPlane.ApproveDelegationRule | earned_autonomy/core/control_plane.py:216-246 | Stores the rule unless it is above the ceiling or the owner delegates to its own agent, as `OperationLaws.ApprovalAnswers` says by consequences |
| ControlPlanes.EarnedAutonomyControlPlane.RevokeDelegationRule | earned_autonomy/core/control_plane.py:248-268 | Deactivates the rule and revokes its scope, or reports it unknown |
| ControlPlanes.EarnedAutonomyControlPlane.RecordIncident | earned_autonomy/core/control_plane.py:272-314 | Counts the incident, demotes the agent, deactivates exactly the active rules of the scope, revokes its tokens and reports both |
| ControlPlanes.DeactivateRules | earned_autonomy/core/control_plane.py:295-300 | The loop deactivates exactly the active rules of the scope |
| Enforcement.PolicyEnforcementPoint.Execute | earned_autonomy/enforcement/pep.py:43-69 | The action is performed exactly when the token verifies for it, and every call is reported |
| Enforcement.AgentClient.BuildEvent | earned_autonomy/enforcement/sdk.py:43-73 | The event goes out under the agent's own name with a signature its key verifies |
| Enforcement.AgentClient.Execute | earned_autonomy/enforcement/sdk.py:78-103 | The call is one execution step of the system, on the event's attributes with overrides and derived rank |

## Left out

- HTTP server, schemas, authentication of users, command line, settings, logging, metrics, demos.
- The classifier: its risk is arbitrary here, and no status depends on it.
- Reason strings, approval packets and other rendered text; ledger payloads are parameters.
- Ed25519 and SHA-256 internals, key generation, uuids.
- SQL dialects and drivers: a conditional update, an insert under a primary key and an append under
  its lock are atomic steps; strings compare by code point.
- Ledger file input and output, JSON snapshots: a ledger may start from any loaded records.
- Rounding of floating-point numbers and their text in JSON: reals are exact, JSON numbers are
  integers, and the signing payload of an event, which holds a confidence, stays abstract.
- Instants beyond the year 9999, where the source overflows: expiries must fit (`Planes.TtlFits`).
- Aliasing of Python objects: stored rules, events and agents are values, so a caller that changes a
  returned object changes nothing here.
- Autonomy levels outside 0 to 7 in stored data.
- CapabilityStores.InMemoryCapabilityStore.ScanScope: the source marks tokens while it loops under the
  lock; here the loop collects them and the caller revokes them together, which nobody can observe
  under the lock.
- ControlPlanes.EarnedAutonomyControlPlane.RecommendFor: the Wilson bound is a function handed in,
  because square roots are not computed here; `Recommendations.WilsonEngine` says what it must be.
- CanonicalProperties.CanonicalBytesDetermineValue: numbers are integers; the text of a
  floating-point number is not modelled.
- CanonicalProperties.ParserRecovers: the same.
- Canonical.RenderRoundTrip: the same.
- Instants.FromIso: any text that is not a UTC instant as `isoformat` prints it counts as malformed,
  which only matters for tokens the control plane did not mint.
- Lookups that only list (`autonomy_map`, `all_active_rules_for_agent`, `export_records`, `seen_nonce`):
  easy members.
