# Velocious: lifecycle protocols and frontend-model algorithms

A Dafny model of the parts of Velocious whose correctness depends on interleavings,
on unbounded recursion, or on a batch meaning the same as its members:

- the lifecycle protocols of the configuration object (background-jobs adapter, model
  initialization and bootstrap, local channel broadcasts, paused websocket sessions,
  beacon outage reporting);
- the recursive algorithms of the frontend-model controller (payload walker, batched
  serializer, record graph and ability checks, query compiler, signed-mutation replay,
  serialization cache under nested overrides);
- the printf formatter of the logger, and the epoch planner with its child process and
  supervisor in the ESM reload benchmark.

Check everything with `dafny verify dfyconfig.toml`.

## How it is modelled

JavaScript runs one activation at a time, so the code between two `await`s is one atomic
step. Each protocol is a state machine whose events are those steps, with promises that are
pending, fulfilled or rejected and a scheduler that may resume any activation whose awaited
promise has settled. Safety is proved for every run under that arbitrary scheduler. Only
`AdapterProgress` assumes more: reactions of one promise run in the order they were
registered, so the activation that created a close promise resumes before those that wait
for it.

Beside each machine stands a class with the source's own fields. Its methods are the steps of
the machine that the source's functions and their callbacks take, and each is proved to be the
machine's step and to keep the machine's invariant. The
algorithms that loop and mutate are methods proved against a recursive specification, and
lemmas about the specification say what it means.

| module | models |
|---|---|
| `Outcomes` | optional values and computations that may throw |
| `AdapterLifecycle`, `AdapterSafety`, `AdapterProgress`, `AdapterRetry`, `AdapterConfiguration` | adapter acquirers, adapter closers and database closers over one adapter generation field |
| `Bootstrap`, `BootstrapSafety`, `BootstrapRetry`, `BootstrapConfiguration` | `initialize` and `initializeModels` against generation bumps |
| `Broadcasts` | local deliveries, their tracking set and the snapshot barrier |
| `PausedSessions` | the paused-session registry and its grace timers |
| `BeaconOutage` | the outage timer and the report |
| `PayloadWalker` | `autoSerializeFrontendModelsInPayload` over heaps with sharing and cycles |
| `Serializer` | the batched, authorised, recursive serializer |
| `RecordGraph` | the walk over loaded records and the batched abilities |
| `QueryCompiler`, `QueryProofs`, `QueryEffects`, `JoinProofs`, `QueryBuilder` | where, search, group, sort and explicit joins on one query, and how often each table is joined |
| `SyncReplay` | the replay of signed mutations |
| `SerializationCache` | the per-request resource cache under nested overrides |
| `LoggerFormat` | the log line formatter |
| `ReloadEpochs` | epoch plan, fixture edits, child process and supervisor |

### Assumptions

- `ensureReady()` and `close()` of an adapter do not synchronously call back into the
  configuration. With such a call, `closing` could be true while `closePromise` is unset.
- Timers never fire early, a cleared timer never fires, and no timer callback runs inside
  another callback. A grace period beyond the 32-bit timer range is not considered.
- `matches()` of a subscription has no effect on the bucket it is iterated in.
- The session's teardown hook, error reporters and the logger do not throw out of the code
  that calls them.
- The database answers with the accessible ids of a class and action and is stable during
  one call. Ids are compared as the strings the source makes of them.
- Relationship names hold no dots, so a path stands for the joined string the source uses
  as a set key. A `NULL` inside an `IN` list never matches.
- The database knows a class's columns by the names in the class's own maps, and quoting
  keeps different values different. It compares a cell with a quoted value as equal exactly
  when they are the same value: collations and type coercion are not modelled. How it orders
  values and matches patterns is left open.
- A record's attributes, Number and JSON renderings, date parsing, signature and grant
  verification, and command execution are oracles: parameters of the model.

### Where the code falls short of its own description

- **Joins.** `ensureFrontendModelJoinPath` is described as giving a path exactly one SQL join.
  It records only the whole path, while the object it hands to the query joins every prefix
  again, and explicit joins are never checked against recorded paths. A filter on `project.name`
  and on `project.owner.name` joins the projects table twice (`NestedWhereJoinsTwice`), and so
  does an explicit join of a relationship that a filter already needed
  (`ExplicitJoinAfterNeedJoinsTwice`). `JoinedAtMostOnceIff` gives the exact condition on the
  calls: each one that makes a join call starts with a relationship no earlier one starts with.
- **Payload walker.** On a payload with a cycle through plain objects, the back-reference is
  returned as the original container. `RecordIsLeftIffOnACycle` gives the exact condition under
  which a backend record is left in the copy: a cycle is reachable through a plain object that
  leads to a record, as in `SelfReferenceLeavesARecord`. Sharing without a cycle is harmless.
- **Serialization cache.** `withFrontendModelParams` resets the cache, but
  `withFrontendModelRequestContext` changes the ability without resetting it. A class served
  before an ability context is entered is served inside it with the outer ability
  (`ContextServesAStaleAbility`). `TransparentIffOneAbilityPerBlock` gives the exact
  condition on the lookups a program makes, and `PinnedProgramsAreTransparent` shows that an
  ability context around the whole body of a params block always meets it. Replay, snapshot and
  batched command handlers have that shape (lines 3838, 4310 and 4371). The custom-command
  handler (line 4474) enters a context without a params block, and runs its command on another
  controller, whose cache is its own.
- **Adapter acquirer.** The identity check that repeats the loop after `ensureReady` and the
  case of a closing generation without a close promise cannot be reached; `AfterReadyOk`
  and `AcquireHeadOk` say so.
- **Beacon timer.** The guard on a missing last error in the timer callback is never false
  (`SustainedOutageIsReported`).
- **Reload benchmark.** A dependency edit is visible inside a process only when it is the
  edit whose tag the process loaded at its start; `ChildMain` counts at most one.

## Model

| member | source | states |
|---|---|---|
| `AdapterSafety.ReturnedAdapterIsLive` | src/configuration.js:1596-1637 | in every run and under every scheduler, the generation of a returned adapter is current, not closing, readied, never had `close()` called for it, and no database close is under way |
| `AdapterSafety.GenerationsNeverOverlap` | src/configuration.js:1568-1701 | in every reachable state superseded generations have a settled close attempt, `close()` ran at most once per generation, at most one `ensureReady()` is in flight and never during or after that generation's `close()` |
| `AdapterSafety.StepKeepsInv` | src/configuration.js:1568-1701 | every step of every caller keeps the protocol invariant |
| `AdapterSafety.AcquireHeadOk` | src/configuration.js:1597-1622 | a trip from the loop head keeps every promise other callers rely on, and never meets a closing generation without its close promise |
| `AdapterSafety.AfterReadyOk` | src/configuration.js:1621-1636 | after `ensureReady` the acquirer returns, fails or waits for a close; the repeat on a replaced generation cannot happen |
| `AdapterSafety.CloseHeadOk` | src/configuration.js:1663-1701 | claiming a close is done once per generation and leaves the other callers' promises alone |
| `AdapterSafety.OneDatabaseClose` | src/configuration.js:3615-3676 | in every reachable state at most one caller is closing the databases |
| `AdapterProgress.EveryTripIsPaid` | src/configuration.js:1596-1637 | an acquirer's loop trips are paid for by pairwise different claimed closes of an adapter generation or of the databases |
| `AdapterProgress.AwaitedCloseIsRetired` | src/configuration.js:1597-1631 | when an acquirer resumes from a close, that close is over and can never be met again |
| `AdapterProgress.StepKeepsPayInv` | src/configuration.js:1596-1701 | every step keeps the account of trips against closes |
| `AdapterRetry.RejectedReadinessIsAwaited` | src/configuration.js:1619-1626 | in every reachable state a generation that remembers a rejected readiness has an acquirer that still awaits it |
| `AdapterRetry.NextAcquireSucceeds` | src/configuration.js:1596-1637 | from every reachable state in which nothing closes and every failure has been delivered, an acquire with a working factory and a succeeding `ensureReady()` returns the current adapter |
| `AdapterRetry.FailsIffSomethingDid` | src/configuration.js:1596-1637 | an acquirer fails exactly when what it awaited was rejected or the factory it needed threw |
| `AdapterRetry.CloseReturnsOnceClosed` | src/configuration.js:1663-1701 | a close call is done only without a generation or once the generation it found is closed, and the call that closed it has made the configuration forget it |
| `AdapterRetry.CloseRejectsIffSomethingFailed` | src/configuration.js:1670-1690 | the close rejects exactly when the awaited readiness or its own `close()` failed |
| `AdapterRetry.PoolsAfterTheAdapter` | src/configuration.js:3624-3650 | a database close reaches the pools only without an adapter generation or once the one it found is closed |
| `AdapterRetry.DatabaseCloseReturnsOnceSettled` | src/configuration.js:3616-3619 | a database close call is done only once the close it started or found has settled |
| `AdapterRetry.DatabaseCloseSettlesAsItEnds` | src/configuration.js:3667-3675 | the database close settles as its body ends and its caller forgets it |
| `AdapterConfiguration.Configuration.GetBackgroundJobsAdapter` | src/configuration.js:1568-1586 | keeps the current generation or starts one; a failing factory leaves the fields alone |
| `AdapterConfiguration.Configuration.AcquireReadyBackgroundJobsAdapter` | src/configuration.js:1597-1622 | one loop trip on the real fields is the machine's step and keeps its invariant |
| `AdapterConfiguration.Configuration.AcquireAfterReady` | src/configuration.js:1621-1636 | after readiness: failure clears the memoised promise by identity, a closing generation is waited for, otherwise the current adapter is returned |
| `AdapterConfiguration.Configuration.CloseBackgroundJobsAdapter` | src/configuration.js:1663-1701 | the first caller claims the generation, all others follow its close promise |
| `AdapterConfiguration.Configuration.CloseBodyResumes` | src/configuration.js:1674-1686 | after readiness, successful or not, the close body calls `close()`, for the first and only time |
| `AdapterConfiguration.Configuration.AdapterCloseSettles` | src/configuration.js:1682-1690 | the close promise rejects if the close or the awaited readiness failed |
| `AdapterConfiguration.Configuration.EnsureReadySettles` | src/configuration.js:1615-1617 | the ready promise settles and the protocol invariant is kept |
| `AdapterConfiguration.Configuration.ForgetClosedGeneration` | src/configuration.js:1693-1701 | the claimant forgets only the generation it closed |
| `AdapterConfiguration.Configuration.CloseDatabaseConnections` | src/configuration.js:3615-3676 | a first caller closes the adapter and registers its close; later callers change nothing and follow it; the protocol invariant is kept |
| `AdapterConfiguration.Configuration.DatabaseCloseSettles` | src/configuration.js:3667-3669 | the end of the close body settles its promise and keeps the invariant |
| `AdapterConfiguration.Configuration.ForgetDatabaseClose` | src/configuration.js:3671-3675 | the `finally` forgets the settled close and keeps the invariant |
| `BootstrapSafety.FlagsAreEarned` | src/configuration.js:2260-2413 | in every reachable state full initialization implies model initialization, and each flag was earned by a complete phase that started and finished in the current generation |
| `BootstrapSafety.OnePhaseInFlight` | src/configuration.js:2264-2310 | at most one model phase and at most one bootstrap are in flight, closes notwithstanding |
| `BootstrapSafety.NormalReturnMeansInitialized` | src/configuration.js:2331-2413 | a call that returned normally has its flag set as long as the generation it captured lasts |
| `BootstrapSafety.AtMostOneStaleWait` | src/configuration.js:2264-2278 | a second wait under one generation is for a phase of that generation, and is the last |
| `BootstrapSafety.StepKeepsInv` | src/configuration.js:2260-2413 | every step, including bumps while stale phases run, keeps the invariant |
| `BootstrapSafety.SettlePhaseOk` | src/configuration.js:2280-2299 | a phase that ends in another generation than it started in sets no flag |
| `BootstrapSafety.InitRetryOk` | src/configuration.js:2345-2359 | a waiter whose bootstrap initialized nothing clears it by identity and retries |
| `BootstrapRetry.ThrowsIffAwaitedRejected` | src/configuration.js:2264-2413 | a step makes a call throw exactly when it resumes it from a rejected phase, bootstrap or close |
| `BootstrapRetry.PhaseRejectedIffItFailed` | src/configuration.js:2280-2299 | a phase is rejected only by its own failure |
| `BootstrapRetry.BootRejectedIffItFailed` | src/configuration.js:2361-2392 | a bootstrap is rejected only by its own failure or that of its model call |
| `BootstrapRetry.ModelsStageThrowsIffRejected` | src/configuration.js:2361-2363 | a bootstrap's model call throws exactly when its phase was rejected |
| `BootstrapRetry.MemoisedHasAnOwner` | src/configuration.js:2301-2413 | in every reachable state whatever is memoised has an owner that will clear it, except a bootstrap that succeeded |
| `BootstrapRetry.IdleInitializeSucceeds` | src/configuration.js:2331-2413 | from every reachable idle state a call of `initialize` whose hooks and initializers succeed returns with both flags set, without initializing models again |
| `BootstrapRetry.IdleInitializeModelsSucceeds` | src/configuration.js:2260-2310 | the same for `initializeModels` |
| `BootstrapRetry.FreshInitializeSucceeds` | src/configuration.js:2331-2413 | the first call on a fresh configuration, event by event |
| `BootstrapRetry.InitializeWaitsForTheClose` | src/configuration.js:2331-2334 | a call during a database close waits for it and starts nothing |
| `BootstrapRetry.CloseIsWaitedForUntilCleared` | src/configuration.js:3624-3675 | a started close is what is waited for until it has settled and is cleared |
| `BootstrapRetry.OwnerLeavesNoUselessMemo` | src/configuration.js:2407-2412 | the owner of a bootstrap that left the configuration uninitialized clears it |
| `BootstrapConfiguration.Configuration.InitializeModels` | src/configuration.js:2260-2303 | the entry segment on the real fields: return, wait for the memoised phase, or start one |
| `BootstrapConfiguration.Configuration.InitializeModelsResumes` | src/configuration.js:2264-2310 | after the wait: identity-checked clearing, one retry in an unchanged generation, and a normal return in it leaves the flag true |
| `BootstrapConfiguration.Configuration.ModelPhaseEnds` | src/configuration.js:2280-2299 | the flag rises only in the generation the phase started in |
| `BootstrapConfiguration.Configuration.Initialize` | src/configuration.js:2331-2334 | waits for a database close first |
| `BootstrapConfiguration.Configuration.InitializeAfterClose` | src/configuration.js:2336-2397 | captures the generation after the wait, then returns, waits or starts a bootstrap |
| `BootstrapConfiguration.Configuration.InitializeAfterBoot` | src/configuration.js:2345-2413 | owner and waiter tails; a normal return in the captured generation leaves the flag true |
| `BootstrapConfiguration.Configuration.BootstrapLeavesModels` | src/configuration.js:2361-2371 | a bootstrap whose models were invalidated stops without setting its flag |
| `BootstrapConfiguration.Configuration.BootstrapEnds` | src/configuration.js:2373-2393 | full initialization is set only in the starting generation and only with models initialized |
| `BootstrapConfiguration.Configuration.CloseSettles` | src/configuration.js:3615-3676 | the bump clears both flags and moves the generation on |
| `BootstrapConfiguration.Configuration.CloseStarts` | src/configuration.js:3624 | a started close is what `initialize` waits for |
| `BootstrapConfiguration.Configuration.CloseClears` | src/configuration.js:3671-3675 | clearing the close leaves flags, generation and phases alone |
| `Broadcasts.OneDeliveryEach` | src/configuration.js:3023-3064 | each open subscription that matches gets exactly one delivery, every other none |
| `Broadcasts.BrokenMatchesAffectsOnlyItself` | src/configuration.js:3028-3045 | a closed, throwing or non-matching subscription changes nothing for the others |
| `Broadcasts.EveryBroadcastLaunchesItsRecipients` | src/configuration.js:3023-3064 | over every run the launched deliveries are those the broadcasts select, in order |
| `Broadcasts.TrackedOrSettled` | src/configuration.js:3053-3063 | every launched delivery is tracked or settled, and is untracked only once settled |
| `Broadcasts.BarrierWaitsForExactlyTheEarlier` | src/configuration.js:3066-3079 | the barrier can return exactly when every delivery launched before its snapshot has settled, and waits for none launched later |
| `Broadcasts.BarrierReturnsIffEarlierSettled` | src/configuration.js:3066-3079 | a barrier awaited now returns at any later moment exactly if all deliveries that exist now have settled by then |
| `Broadcasts.SettledDeliveryIsUntracked` | src/configuration.js:3053-3063 | a running delivery settles, and its reaction takes it and nothing else off the set |
| `Broadcasts.LocalBroadcasts.BroadcastToChannelLocal` | src/configuration.js:3023-3064 | the loop launches and tracks one delivery per recipient and skips the rest |
| `Broadcasts.LocalBroadcasts.AwaitLocalBroadcastDeliveries` | src/configuration.js:3075-3079 | the snapshot is the tracking set at that moment |
| `Broadcasts.LocalBroadcasts.AllSnapshotSettled` | src/configuration.js:3075-3079 | when the barrier returns, all earlier deliveries have settled |
| `Broadcasts.LocalBroadcasts.UntrackReaction` | src/configuration.js:3053-3063 | a settled delivery, and only that one, leaves the tracking set |
| `PausedSessions.EntriesMatchTimers` | src/configuration.js:2879-2939 | over every run registry entries and armed timers are in bijection |
| `PausedSessions.EpisodesEndOnce` | src/configuration.js:2879-2939 | every pause episode is still armed or ended exactly once |
| `PausedSessions.EveryEndEndsItsPause` | src/configuration.js:2879-2939 | a finalisation ends the last pause of its session id, undisturbed since, a full grace window later; a cleared or re-paused session is never finalised by an older timer |
| `PausedSessions.DueTimerFinalizesItsOwn` | src/configuration.js:2921-2939 | a due timer always finds and finalises its own session |
| `PausedSessions.PauseLastsItsGrace` | src/configuration.js:2879-2894 | a session paused with g seconds of grace stays paused, whatever else happens, until it is cleared or 1000 g milliseconds have passed; then its timer is due |
| `PausedSessions.PauseWithoutGraceIsDue` | src/configuration.js:2885-2888 | with no grace the timer is due at once |
| `PausedSessions.ClearRemovesSessionAndTimer` | src/configuration.js:2913-2920 | a clear removes its session and timer and nothing else |
| `PausedSessions.HistoryIsOfTheEvents` | src/configuration.js:2879-2939 | what is recorded of a run is what its events did |
| `PausedSessions.Sessions.PauseWebsocketSession` | src/configuration.js:2879-2894 | throws only for a missing id, does nothing for a session already paused, else registers it with a fresh timer |
| `PausedSessions.Sessions.ClearPausedWebsocketSession` | src/configuration.js:2913-2920 | removes the entry together with its timer |
| `PausedSessions.Sessions.ExpireWebsocketSession` | src/configuration.js:2928-2939 | drops the entry of the id and finalises its session |
| `PausedSessions.Sessions.TimerFires` | src/configuration.js:2886-2888 | a firing timer finalises the episode it was armed for |
| `BeaconOutage.ErrorKeptWhilePendingOrReported` | src/configuration.js:1918-1958 | the last error is remembered exactly while a report is pending or made, never both, and the remembered timer is the only armed one |
| `BeaconOutage.EveryReportIsEarned` | src/configuration.js:1918-1942 | every report is the only one since the last clear, follows a down at least its window earlier, and carries the most recent error |
| `BeaconOutage.AtMostOneReportBetweenClears` | src/configuration.js:1923-1936 | reports are at most the clears, plus one for an outage still open |
| `BeaconOutage.SustainedOutageIsReported` | src/configuration.js:1925-1936 | a due timer with no connected client always reports; with one it recovers |
| `BeaconOutage.FirstDownOpensTheWindow` | src/configuration.js:1918-1942 | after the first down of an outage nothing is reported before its window has passed, whatever else happens short of a clear, and then the report is due |
| `BeaconOutage.DownIsKeptAndClearForgets` | src/configuration.js:1918-1958 | a down is remembered; a connect or disconnect forgets the outage and disarms its timer |
| `BeaconOutage.HistoryIsOfTheEvents` | src/configuration.js:1918-1958 | what is recorded of a run is what its events did |
| `BeaconOutage.Beacon.HandleBeaconDown` | src/configuration.js:1918-1942 | keeps the newest error and arms a timer only when none is pending or reported |
| `BeaconOutage.Beacon.HandleBeaconUp` | src/configuration.js:1950-1958 | disarms and clears everything |
| `BeaconOutage.Beacon.ReportTimerFires` | src/configuration.js:1925-1936 | reports the last error unless the client is connected |
| `BeaconOutage.Beacon.DisconnectBeacon` | src/configuration.js:2004-2018 | disarms and clears everything |
| `PayloadWalker.CopyIsCleanIffAcyclic` | src/frontend-model-controller.js:4713-4785 | the copy mirrors the payload and holds an original container exactly when a cycle is reachable; on acyclic payloads, however shared, it holds no record anywhere |
| `PayloadWalker.RecordIsLeftIffOnACycle` | src/frontend-model-controller.js:4713-4785 | a backend record is left in the copy exactly when a cycle is reachable through a plain object that leads to a record |
| `PayloadWalker.SelfReferenceLeavesARecord` | src/frontend-model-controller.js:4713-4785 | an object holding itself and a record is returned with the record inside |
| `PayloadWalker.ElementsAreLower` | src/frontend-model-controller.js:4713-4785 | without array-only cycles, every array ranks above its elements, so the recursion ends |
| `PayloadWalker.CopyMirrors` | src/frontend-model-controller.js:4713-4785 | keys, lengths and leaves are kept and every backend record is replaced by its own marker |
| `PayloadWalker.RankedIsAcyclic` | src/frontend-model-controller.js:4713-4785 | a payload whose containers can be ranked downwards has no cycle, however much it shares |
| `PayloadWalker.ThrowsIffARecordFails` | src/frontend-model-controller.js:4713-4785 | the walk throws exactly when some record it meets cannot be serialized |
| `PayloadWalker.Walker.AutoSerialize` | src/frontend-model-controller.js:4713-4785 | terminates on every heap in which no array contains itself through arrays alone, and leaves `seen` as it found it, returning or throwing |
| `Serializer.SerializeFrontendModels` | src/frontend-model-controller.js:3038-3159 | the batched serializer returns what serializing record by record means, and throws exactly when a record alone would |
| `Serializer.BatchIsPointwise` | src/frontend-model-controller.js:3038-3159 | a list serializes to its members' payloads, same length and order, and fails exactly when a member alone fails |
| `Serializer.RelatedAppearsIffAccessible` | src/frontend-model-controller.js:2947-3030 | a due collection shows exactly its accessible records in order; a due single record shows exactly if accessible |
| `Serializer.AccessIsByIndexAndFind` | src/frontend-model-controller.js:2981-2983 | collections are guarded by the index action and single records by the find action: an id is accessible exactly when that action's grants hold it |
| `Serializer.AccessAtTheEdges` | src/frontend-model-controller.js:2947-2999 | without an id, a resource or an action everything is denied, an action without rules throws, and without an ability nothing is checked |
| `Serializer.QuestionsCarryTheAction` | src/frontend-model-controller.js:2981-3005 | each question carries the index action for collections and the find action otherwise |
| `Serializer.PayloadCarriesItsRecord` | src/frontend-model-controller.js:3130-3156 | a payload carries its record's attributes, and counts, query data and abilities when there are any |
| `Serializer.PayloadShowsThePreloaded` | src/frontend-model-controller.js:3055-3087 | a payload shows exactly the exposed relationships that were preloaded |
| `Serializer.FilterSerializableRelatedModels` | src/frontend-model-controller.js:2947-3030 | the batch filter keeps exactly the models whose own (class, action, id) is accessible, and asks once for each class that has an action and an id |
| `Serializer.AuthorizedIdsByClass` | src/frontend-model-controller.js:2960-3025 | the database is asked at most once per class, about that class's action and all its ids in the batch, and once for every class with something to ask unless a question throws |
| `Serializer.SerializeCollections` | src/frontend-model-controller.js:3089-3103 | the collections of the whole batch are authorised together, before any record below them is serialized |
| `Serializer.SerializeSingulars` | src/frontend-model-controller.js:3105-3122 | so are its single related records |
| `Serializer.CollectRelated` | src/frontend-model-controller.js:3038-3100 | the first pass sets aside every due relationship that needs authorisation and fills in the rest |
| `RecordGraph.CollectRecordsForName` | src/frontend-model-controller.js:1401-1443 | terminates on every cyclic graph and returns each reachable record of the name exactly once and nothing else |
| `RecordGraph.SeenIsReachable` | src/frontend-model-controller.js:1415-1440 | what the walk has seen is what is reachable |
| `RecordGraph.LinksAreLoaded` | src/frontend-model-controller.js:1427-1438 | a record leads to the members of its loaded lists and its loaded single records |
| `RecordGraph.Collector.Walk` | src/frontend-model-controller.js:1415-1438 | visiting a record adds it and all it reaches, expanded, and nothing else |
| `RecordGraph.Abilities.ComputeAbilities` | src/frontend-model-controller.js:1455-1498 | each asked record gets the answer it would get alone, in any cohort with an id, nothing else is written, and one query is made per action of each entry whose cohort has an id |
| `RecordGraph.Abilities.ComputeAction` | src/frontend-model-controller.js:1474-1496 | exactly one query, for all ids of the cohort; an ability that throws denies every candidate |
| `RecordGraph.AllowedIffGranted` | src/frontend-model-controller.js:1474-1496 | the answer is yes exactly for an id the action's grants hold; without rules or an id it is no |
| `QueryProofs.WhereCompilesItsMeaning` | src/frontend-model-controller.js:2284-2357 | a `where` record is rejected exactly when some key is neither a queryable column nor a plain object under a known relationship, and when accepted a joined row passes the emitted conditions exactly when the recursive meaning holds |
| `QueryProofs.EntryCompilesItsMeaning` | src/frontend-model-controller.js:2285-2356 | the same for one key |
| `QueryProofs.ColumnConditionMeans` | src/frontend-model-controller.js:2297-2325 | null is IS NULL, an empty array is false, one no-match element makes the array false, anything else is equality |
| `QueryProofs.NormalizationStandsFor` | src/frontend-model-controller.js:2366-2399 | every value stands for itself, save dates on date columns and objects on columns that hold them |
| `QueryEffects.ColumnTypesBySubstring` | src/frontend-model-controller.js:2368-2391 | date columns are those with date or timestamp in their type; objects fit types with text in them and ten more |
| `QueryProofs.SearchConditionMeans` | src/frontend-model-controller.js:1997-2038 | an equality search passes exactly the rows it finds; its negation passes the others, with the empty-array and NULL cases as the code has them |
| `QueryEffects.SearchCompilesItsMeaning` | src/frontend-model-controller.js:1964-2038 | a search is accepted exactly when it refers to a queryable column, and then filters that column by its own operator and value |
| `QueryEffects.GroupAddsItsColumn` | src/frontend-model-controller.js:2408-2430 | a group is accepted exactly when it refers to a queryable column, which it joins and groups by |
| `QueryEffects.RootGroupsAddTheirColumns` | src/frontend-model-controller.js:2438-2465 | every root column is grouped by and nothing else is added |
| `QueryEffects.SortOrdersByItsColumn` | src/frontend-model-controller.js:2515-2573 | a sort orders by its column in its direction, a translated one by the translation's column |
| `QueryEffects.ExplicitJoinsAreAllOrNothing` | src/frontend-model-controller.js:2088-2150 | explicit joins are accepted exactly when every path of their tree resolves, and otherwise join nothing |
| `QueryProofs.EveryQueryIsUsable` | src/frontend-model-controller.js:2088-2150 | over every sequence of calls each referenced path is recorded as joined, recorded paths are those a join call was made for, no path call is made for a recorded path, and every filtered, grouped or plainly sorted column is exposed |
| `JoinProofs.JoinedAtMostOnceIff` | src/frontend-model-controller.js:2575-2594 | over every sequence of calls no table is joined by two calls if and only if each call that joins starts with a relationship no earlier one starts with |
| `JoinProofs.NestedWhereJoinsTwice` | src/frontend-model-controller.js:2284-2343 | a filter on a relationship and on one below it joins the first table twice |
| `JoinProofs.ExplicitJoinAfterNeedJoinsTwice` | src/frontend-model-controller.js:2088-2109 | an explicit join of a relationship already filtered on joins its table twice |
| `JoinProofs.PathCoversItsPrefixes` | src/frontend-model-controller.js:501-517 | a join call for a path joins each of its non-empty prefixes |
| `JoinProofs.OpsMeetTheirDemands` | src/frontend-model-controller.js:2582-2594 | the joins of any sequence of calls are those the paths and trees it asks for lead to, failing calls included |
| `QueryProofs.OpUsable` | src/frontend-model-controller.js:2408-2594 | each single call keeps those facts, whether it succeeds or fails |
| `QueryProofs.QueryableIsExposed` | src/frontend-model-controller.js:2210-2273 | a queryable column belongs to an attribute the resource exposes |
| `QueryEffects.QueryableIffItNamesAnExposedColumn` | src/frontend-model-controller.js:2193-2275 | a key is queryable exactly as the column of an exposed attribute it names |
| `QueryProofs.EnsureJoinUsable` | src/frontend-model-controller.js:2582-2594 | one call is made per recorded path, and none when it is already recorded, by explicit joins or otherwise |
| `QueryProofs.TreePathsAreThePaths` | src/frontend-model-controller.js:2121-2150 | explicit joins record exactly the non-empty paths of their tree |
| `QueryProofs.TreePathsArePrefixClosed` | src/frontend-model-controller.js:2121-2150 | the recorded paths are closed under non-empty prefixes |
| `QueryProofs.SearchTargetIsClassAt` | src/frontend-model-controller.js:1935-1955 | a search path resolves exactly when every step has a target class |
| `QueryBuilder.Builder.ApplyWhereForPath` | src/frontend-model-controller.js:2284-2357 | the loop appends what the specification says, including what an error leaves behind |
| `QueryBuilder.Builder.EnsureJoinPath` | src/frontend-model-controller.js:2582-2594 | calls for a non-empty path that is not recorded yet, and records it |
| `QueryBuilder.Builder.ApplyExplicitJoins` | src/frontend-model-controller.js:2088-2150 | one join call for the tree, its paths recorded only if the whole tree is valid |
| `QueryBuilder.Builder.Search` | src/frontend-model-controller.js:1964-2038 | joins the path and filters the resolved column, or rejects |
| `QueryBuilder.Builder.GroupBy` | src/frontend-model-controller.js:2408-2430 | joins the path and groups the resolved column at most once |
| `QueryBuilder.Builder.GroupByRootColumns` | src/frontend-model-controller.js:2438-2465 | adds each root column at most once |
| `QueryBuilder.Builder.SortBy` | src/frontend-model-controller.js:2515-2573 | joins and orders by a plain or translated column |
| `SyncReplay.AuthorizeIffEntitled` | src/frontend-model-controller.js:3795-3832 | the ordered checks let through exactly the dispatches on which signature, manifest operation, grant id, device, user, grant operation and all three policy hashes agree, with the id that identifies them where one is needed |
| `SyncReplay.IdIsTheOne` | src/frontend-model-controller.js:4033-4053 | the id fallbacks settle on the only usable id; a present id that is neither string nor number is refused |
| `SyncReplay.IdFallsBack` | src/frontend-model-controller.js:4033-4053 | a missing, empty or zero id falls back to the record id and then the primary key; a present id of another type does not |
| `SyncReplay.WhoCarriesAnId` | src/frontend-model-controller.js:4031-4056 | updates, destroys and member commands carry an id, creates and collection commands none |
| `SyncReplay.StepIsEntitled` | src/frontend-model-controller.js:3795-3889 | one envelope adds at most its own entitled dispatch, and a refusal adds nothing |
| `SyncReplay.Replay.FrontendSyncReplay` | src/frontend-model-controller.js:3733-3768 | one result per mutation in order; a result with status error dispatched nothing and appended nothing; everything dispatched is entitled |
| `SyncReplay.Replay.ReplaySignedMutation` | src/frontend-model-controller.js:3795-3889 | throws only before dispatch; the response reported is the command's own or the error payload; a feed append happens only after a success response |
| `SyncReplay.ReturnedIsReportedAndFed` | src/frontend-model-controller.js:3838-3871 | a command that returned is reported with its own response, and if that is a success the feed takes, each valid change has become one entry and the last sequence is reported |
| `SyncReplay.HaltedOrRaisedFeedsNothing` | src/frontend-model-controller.js:3838-3863 | a command that was halted or threw is reported with the error payload and feeds nothing |
| `SyncReplay.EntriesBelongToTheGrant` | src/frontend-model-controller.js:4143-4154 | every entry is under the envelope's key, for the device and user of the grant, in its scope, with the response reported |
| `SyncReplay.MutationItselfIsFed` | src/frontend-model-controller.js:4124-4142 | a success without changes feeds the mutation itself, under the first id its payload or attributes have |
| `SyncReplay.ChangeIsFedAsItIs` | src/frontend-model-controller.js:4133-4154 | a change of the response is fed with its own fields before those of the mutation |
| `SyncReplay.Replay.AppendServerChange` | src/frontend-model-controller.js:4120-4160 | appends the valid changes in order, with attributes, payload, record id, response and scope, and returns the last sequence; a throwing append leaves a proper prefix |
| `SerializationCache.TransparentIffOneAbilityPerBlock` | src/frontend-model-controller.js:2877-2938 | every lookup of a run equals a fresh one if and only if the program, read without any cache, looks up no class with a resource under two abilities in one params block |
| `SerializationCache.ExecMakesTheLooks` | src/frontend-model-controller.js:2877-2938 | the cache never changes which lookups are made |
| `SerializationCache.ServedUnderTheFirstAbility` | src/frontend-model-controller.js:2877-2938 | every lookup is fresh for the params in force and the ability of the block's first lookup of the class |
| `SerializationCache.PinnedProgramsAreTransparent` | src/frontend-model-controller.js:3838-3845 | programs that change the ability only around a whole params block always get fresh instances |
| `SerializationCache.ContextServesAStaleAbility` | src/frontend-model-controller.js:670-705 | an ability context entered after a lookup is served the outer ability's instance |
| `SerializationCache.ExecKeepsGood` | src/frontend-model-controller.js:644-660 | the cache equals what its block has served, under any nesting and any exit |
| `SerializationCache.FreshCarriesWhatIsInForce` | src/frontend-model-controller.js:1020-1044 | the root's resource carries the request's model and params, a related model's its own name and no params, both the ability in force |
| `SerializationCache.RootIsTheFirstProjects` | src/frontend-model-controller.js:734-783 | the root definition is that of the first project that defines the model, and must be a resource |
| `SerializationCache.RelatedIsTheFirstProjects` | src/frontend-model-controller.js:2898-2929 | a related model's resource class is that of the first project that registers one |
| `SerializationCache.ParamsBlockEndsWithItsBody` | src/frontend-model-controller.js:644-660 | a lookup in a params block is under its params, one after it under the request's again, also after a caught exception |
| `SerializationCache.Controller.Perform` | src/frontend-model-controller.js:644-705 | any nested program on the fields does what the run on values says and restores every override |
| `SerializationCache.Controller.WithFrontendModelParams` | src/frontend-model-controller.js:644-660 | all three saved fields are restored on normal and exceptional exit |
| `SerializationCache.Controller.WithFrontendModelRequestContext` | src/frontend-model-controller.js:670-705 | the ability override is restored; the cache is kept |
| `SerializationCache.Controller.SerializationResourceInstanceForModel` | src/frontend-model-controller.js:2877-2938 | serves the cached instance or builds and caches one; a missing resource is not cached |
| `SerializationCache.Controller.FrontendModelParams` | src/frontend-model-controller.js:627-635 | the override, else the memoised request params |
| `LoggerFormat.FormatUserMessages` | src/logger.js:69-115 | the loops build the line of the pieces |
| `LoggerFormat.EveryArgumentOnceInOrder` | src/logger.js:69-115 | every argument is rendered exactly once and in order, and a format is not rendered itself |
| `LoggerFormat.FormatIsCoveredFaithfully` | src/logger.js:74-96 | the pieces read back as the format; specifiers stay verbatim only when arguments are used up, and each other one renders its own argument |
| `LoggerFormat.SpecifiersAreSix` | src/logger.js:74-76 | the specifiers are %s, %d, %j, %o, %O and %% |
| `LoggerFormat.RendersBySpecifier` | src/logger.js:84-95 | each specifier renders as it should: text as it is, numbers or NaN, structures |
| `LoggerFormat.EscapingRoundTrip` | src/logger.js:69-115 | doubling every percent sign returns the text followed by the space-separated arguments, in either branch |
| `LoggerFormat.TestPattern` | src/logger.js:74 | tells exactly whether a specifier occurs |
| `LoggerFormat.ReplaceMatches` | src/logger.js:75-96 | the replacement loop yields the format's pieces and the number of arguments used |
| `LoggerFormat.MessagesToMessage` | src/logger.js:123-130 | an empty subject or message leaves the other alone, else one space joins them |
| `ReloadEpochs.PlanEpochs` | benchmark/support/factory-esm-reload-retention.js:128-139 | the epochs sum to the total, all but the last are full and the last is not empty |
| `ReloadEpochs.PlanIsUnique` | benchmark/support/factory-esm-reload-retention.js:120-139 | no other plan has these properties |
| `ReloadEpochs.PlanLength` | benchmark/support/factory-esm-reload-retention.js:120-139 | the number of epochs is the total divided by the capacity, rounded up |
| `ReloadEpochs.TagsAfterEdits` | benchmark/support/factory-esm-reload-retention.js:29-41 | after edits 0..k the files hold the tags the closed forms name |
| `ReloadEpochs.BoundaryEditRepeats` | benchmark/support/factory-esm-reload-retention.js:101-115 | applying the boundary edit twice leaves the files as applying it once |
| `ReloadEpochs.TopLevelEditsAddUp` | benchmark/support/factory-esm-reload-retention.js:183-187 | counting every third index gives the expected number of top-level edits |
| `ReloadEpochs.Fixture.ApplyEdit` | benchmark/support/factory-esm-reload-retention.js:101-115 | rewrites the files due at the index and reports which |
| `ReloadEpochs.ChildMain` | benchmark/support/factory-esm-reload-retention-child.js:82-156 | completes the reloads that fit the budget, stops on the recycle error only in epoch mode, and reports counts, visibility and files exactly |
| `ReloadEpochs.RunSupervised` | benchmark/factory-esm-reload-retention.js:122-172 | no child fails, epochs cover the run within the budget, each later epoch starts by seeing the edit of its start index, and top-level edits are counted once |
| `ReloadEpochs.Process.ReserveDefinitionReloadBudget` | src/testing/factory/node/definition-reload-policy.js:137-149 | reserves a whole batch or rejects it without change |
| `ReloadEpochs.Process.ReloadDefinitions` | src/testing/factory/node/load-definitions.js:87-127 | a rejected reload changes nothing; a helper once imported keeps its first value |

## Left out

- Files, sockets, child processes, rendering, HTTP responses, database drivers and pools, the SQL query builder, the beacon client and the change-feed store: they are parameters or are not part of this model.
- Creation and uniqueness of the beacon client (`connectBeacon`): only the outage machine is modelled.
- Pool closing: only whether it reaches the generation bump is modelled, not which pool failed.
- Configuration getters, defaults and validation: long but decided branch by branch.
- Distinct rewriting for MSSQL, pluck projection, array search operators' text, the SQL text of translated sorts and the shape of error payloads: string assembly.
- Object identity of records in the serializer: a record is a value with its class and id, so two objects with equal contents are not told apart. The record graph and the payload walker keep identity.
- Array-only cycles in payloads: the source does not terminate on them, so the walker's heaps are those in which no array contains itself through arrays alone.
- Loaded relationships as read from the record's relationship objects: the model is given what is loaded.
- Controller-path lookup of the root resource in the serialization cache: the root is found by the model name of the params only.
- The resolution hook of the serialization cache: it observes the recorded lookups and is assumed not to throw.
- Tenant resolution and connection checkout around an ability context.
- Serialization of a record's own attributes inside the batched serializer: a total oracle.
- Payload and attribute shaping of replayed commands, and grant or signature cryptography: oracles of the model.
- Memory samples, time limits and process failures in the reload benchmark.
- Log levels and outputs: independent branches around the formatter.
- AdapterProgress.EveryTripIsPaid: assumes that a promise's creator resumes before its waiters, which is the order in which promise reactions run.
- ReloadEpochs.PlanEpochs: requires a capacity of at least 1, because with none the source's loop does not end.
- ReloadEpochs.RunSupervised: requires a budget for at least one reload, for the same reason.
- BootstrapSafety.AtMostOneStaleWait: a wait is counted within one captured generation; a generation that changes lets the call return instead.
