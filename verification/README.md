# Verified model of Synch

A Dafny model of the parts of Synch, an end-to-end encrypted file sync service, that keep state over
unbounded runs, with proofs of what those parts promise. `dafny verify dfyconfig.toml` checks it all.

- **Fair-share bandwidth** (`Bandwidth`, `SharedBandwidthLink`). A piecewise-constant rate earns a budget that a
  loop shares among pending transfers. The loop is shown to be max-min fair water-filling, and the link to
  conserve bytes and not to depend on when it is ticked.
- **Sync core** (`EntryPolicy`, `SyncStore`, `Convergence`, `SyncEffects`, `BlobPolicy`, `BlobLedger`, `BlobEffects`, `Health`). Optimistic
  commits, the client's three-state rows that rebase a newer edit, staged, live and retired blobs with their
  accounting and collection schedule, and the health schedule.
- **Vault sharing** (`SharingTables`, `SharingStore`, `SharingService`, `SharingSafety`, `SharingEpochs`,
  `SharingEffects`, `SharingWrappers`, `SharingLimits`, `SharingRefresh`, `RefreshEffects`, `SharingTokens`, `SharingCalls`, `SharingAlone`, `SharingReturn`). Invitations
  with seats, grants with access versions, key requests, removal, the refresh outbox and sync tokens.
  `SharingTables` gives each store operation as one guarded step, `SharingStore` runs the statements of the
  original one after another and refines it, and `SharingService` runs calls as threads that read and write one
  statement at a time, interleaved with each other and with time. `SharingCalls` is each call as a method, and
  `SharingAlone` shows that an undisturbed thread does just that.
- **Key delivery** (`VaultCrypto`, `KeyDelivery`, `KeyDeliverySafety`, `DataKey`, `KeyReceipt`, `KeyHandover`,
  `KeyOverlap`, `KeySteps`, `SharingClient`). Devices that crash, retry and lose replies bring a vault's data key to its members
  over that service.
- **Request cache** (`RequestCache`). A generation-guarded cache whose stale completions race with invalidations.

`SharingEffects`, `BlobEffects`, `RefreshEffects`, `SyncEffects` and `KeySteps` state, apart from the functions the
runs are built of, exactly when each step does anything, which columns it writes and that every other row stays.

## Modelling decisions

- Times and byte counts are integers, except in the scheduler, which uses reals. Its tolerance is a parameter:
  laws that hold for every tolerance say so, the exact ones are stated at zero.
- Each SQL statement and each batch is one atomic step; everything between two awaits of a service call or a
  device is a step of its own, and the clock never goes back between steps. A statement reads the clock once.
- What a device reads through the service it reads in one step, without the service's guards: those read the
  tables at earlier moments, so a device may find any of them passed. The access check behind sync tokens is
  the exception: it is run read by read in `SharingEpochs` and `SharingTokens`.
- Identifiers, salts, nonces and revisions are numbers drawn afresh and never reused; 0 is the empty identifier.
  An account has at most one membership in an organization.
- Cryptography is ideal: a ciphertext opens exactly under its own key, nonce and authenticated data. Clients and
  server are honest.
- The coordinator's glue that stores a decision stores the decision's own outputs, as in
  `mutation-service.ts` and `blob-record-operations.ts`.

## What the proofs found

- A mutation id alone does not make a commit happen once: `EntryPolicy.SameIdAppliesAgainOnANewBase` applies one
  id on two bases. It is at most once for each base, and `EntryPolicy.AppliesExactlyOnTheCurrentBase` is exact.
- A client that edits again after a lost reply is refused as stale: if the server had recorded the push
  (`Convergence.EditAfterLostReplyIsStale`), or if it handles the push only later, after the client gave up on it
  (`Convergence.LateArrivalMakesEditStale`). `Convergence.Safe` is the exact condition
  (`Convergence.SafeExactlyWhenNextPushIsAccepted`); it always holds while every push is acknowledged.
- Removing a new file while its first push is in flight is undone by the push's acknowledgment, with no reply
  lost (`Convergence.RemovalDuringFirstPushIsUndone`). In every other case the last edit wins
  (`Convergence.LastEditWins`).
- An access check that spans a removal can answer with the version from before it
  (`SharingReturn.ReturnedMemberAndChecks`); that version is dead (`SharingEpochs.CheckedVersionIsCurrentOrDead`).
- A sync token is minted some reads after its access check. One minted after the coordinator recorded the user's
  removal outlives the coordinator's block and is then accepted (`SharingTokens.LateTokenOutlivesItsBlock`). An
  outdated token is refused for life exactly if it expires no later than the block
  (`SharingTokens.OutdatedTokensAreRefusedForLifeExactly`).
- Two receives of one request on one device can leave the server with one wrapper and the device with another,
  which is refused for ever (`KeyOverlap.OverlappingReceivesPart`). They can exactly if one is opened on a receiver
  without a wrapper while another is under way and the server would still complete the request
  (`KeyOverlap.ReceivesAgreeExactly`); every handover reaches that (`KeyOverlap.OverlapIsReached`).
- Deleting a blob on request checks its references and deletes its record in two transactions, so a commit in
  between loses the blob (`BlobLedger.CommitBetweenCheckAndDeletion`); the exact condition is
  `BlobLedger.LateDeletionLosesExactlyPinnedBlobs`. In all other runs the pause for a stale referenced blob is
  unreachable.
- The statements of the sharing store's batches never falsify each other's guards, so each batch is one step.

## Model

| member | source | states |
|---|---|---|
| Bandwidth.BudgetAdds | benchmarks/sync/src/bandwidth.ts:33-39 | The budget of an interval is the sum of the budgets of its two halves, wherever it is cut. |
| Bandwidth.BudgetIsTheIntegral | benchmarks/sync/src/bandwidth.ts:33-39 | Any function that is additive over intervals and, inside each segment, earns a thousandth of its bytesPerSecond for each millisecond equals the budget: the loop computes the integral of the piecewise-constant rate. |
| Bandwidth.BudgetIntegratesRate | benchmarks/sync/src/bandwidth.ts:33-39 | The budget itself is such a function, so the characterisation is not empty. |
| Bandwidth.EarnedInSegment | benchmarks/sync/src/bandwidth.ts:33-39 | Inside one segment of a valid schedule its bytesPerSecond times the milliseconds, over a thousand, is earned, whatever the other steps. |
| Bandwidth.OneSecondEarnsTheRate | benchmarks/sync/src/bandwidth.ts:33-39 | One second inside a segment earns exactly that segment's bytesPerSecond. |
| Bandwidth.RoundProgress | benchmarks/sync/src/bandwidth.ts:41-48 | A sharing round either exhausts the budget or finishes at least one job, never overspends, and takes no more than any job has: the loop terminates. |
| Bandwidth.SpendIsWaterFilling | benchmarks/sync/src/bandwidth.ts:41-48 | The whole loop leaves exactly what draining one common level from every job leaves: the same survivors in the same order, each having received that level. |
| Bandwidth.LevelPoursTheBudget | benchmarks/sync/src/bandwidth.ts:41-48 | At tolerance zero each job receives min(remaining, level), and that pours out min(budget, all that remains). |
| Bandwidth.FairOutcomeIsUnique | benchmarks/sync/src/bandwidth.ts:41-48 | Any level that pours out min(budget, all that remains) leaves what the loop leaves: the max-min fair outcome is unique. |
| Bandwidth.SpendAccounts | benchmarks/sync/src/bandwidth.ts:41-48 | Bytes spent plus bytes still owed equal the bytes owed before, up to one tolerance for each finished job; nothing is left over while jobs remain. |
| Bandwidth.SpendTwice | benchmarks/sync/src/bandwidth.ts:41-48 | Spending two budgets one after the other leaves the same jobs as spending their sum at once. |
| Bandwidth.ResolvedExactlyOnce | benchmarks/sync/src/bandwidth.ts:44-47 | Every pending job is either still pending or resolved exactly once. |
| Bandwidth.EveryTransferResolvesOnce | benchmarks/sync/src/bandwidth.ts:21-49 | Over any run of a new link each admitted transfer is resolved once or still pending, never both and never twice. |
| Bandwidth.DeliveredIsBounded | benchmarks/sync/src/bandwidth.ts:13-49 | Over any run of transfers and ticks the bytes delivered never exceed the integral of the rate over its time, and equal it when every accounting leaves a job pending. |
| Bandwidth.RunConservesBytes | benchmarks/sync/src/bandwidth.ts:21-49 | Over any run delivered bytes plus bytes still pending equal bytes admitted, up to one tolerance for each finished job. |
| Bandwidth.ExactRunsLoseNothing | benchmarks/sync/src/bandwidth.ts:21-49 | At tolerance zero the conservation is exact. |
| Bandwidth.OnlyBusyTimeDelivers | benchmarks/sync/src/bandwidth.ts:21-49 | Over any run the bytes delivered are at most what the rate earns over the stretches that began with a transfer pending, and exactly that unless an accounting finished the last one. |
| Bandwidth.IdleEarnsNoCredit | benchmarks/sync/src/bandwidth.ts:21-49 | The transfer that ends an idle stretch, and all after it, get at most the integral of the rate from that transfer on; the link behaves as if its clock had stood at that time. |
| Bandwidth.TickIndependence | benchmarks/sync/src/bandwidth.ts:32-49 | Advancing to t1 and then to t2 leaves exactly what advancing straight to t2 leaves, for every schedule and every t1 <= t2. |
| Bandwidth.TicksAreInvisible | benchmarks/sync/src/bandwidth.ts:21-59 | Removing every tick from a run of transfers and ticks, and advancing once at its end, leaves the same link: the timer's period does not matter. |
| SharedBandwidthLink.SharedBandwidth.Create | benchmarks/sync/src/bandwidth.ts:13-19 | The constructor accepts exactly the valid schedules and starts its clock now. |
| SharedBandwidthLink.SharedBandwidth.Advance | benchmarks/sync/src/bandwidth.ts:32-49 | The method's loops, mutating the pending list in place, refine Bandwidth.Advance and resolve exactly the finished jobs. |
| SharedBandwidthLink.SharedBandwidth.SpendBudget | benchmarks/sync/src/bandwidth.ts:40-48 | The sharing loop refines Bandwidth.Spend and terminates. |
| SharedBandwidthLink.SharedBandwidth.TakeShare | benchmarks/sync/src/bandwidth.ts:42-44 | One round subtracts one share from every pending job. |
| SharedBandwidthLink.SharedBandwidth.ResolveFinished | benchmarks/sync/src/bandwidth.ts:45-47 | The backwards splice keeps the unfinished jobs in order and resolves the finished ones. |
| SharedBandwidthLink.ResolvedAtTheTolerance | benchmarks/sync/src/bandwidth.ts:45-47 | A job is resolved exactly when at most a ten-millionth of a byte of it remains. |
| SharedBandwidthLink.SharedBandwidth.Transfer | benchmarks/sync/src/bandwidth.ts:21-30 | A transfer is refused when negative, immediate when zero, and otherwise admitted after existing transfers are accounted for. |
| Health.EvaluateHealth | apps/api/src/sync-coordinator/domain/health-policy.ts:21-82 | The reasons reported are exactly those that apply, in order, and the status is critical, warning or ok accordingly. |
| Health.ReasonsInNumbers | apps/api/src/sync-coordinator/domain/health-policy.ts:11-82 | The reasons in plain numbers: the limit, eighty percent of it, an hour for a staged blob, a day for a pending delete, more than a hundred pending deletes, a day without a commit. |
| Health.NextHealthSummaryFlushAt | apps/api/src/sync-coordinator/domain/health-policy.ts:88-130 | The next flush is the least of the future times at which a reason can start, or none. |
| Health.ReasonsOnlyStartAtCandidates | apps/api/src/sync-coordinator/domain/health-policy.ts:21-141 | With facts ageing by elapsed time, each reason applies from exactly one time on, if ever: at once, or from one of the candidate times. |
| Health.ScheduleIsExact | apps/api/src/sync-coordinator/domain/health-policy.ts:21-141 | The reasons are constant at every time before the next flush, gain one exactly at it, and are constant for ever when there is none. |
| Health.EveryFlushUsesUpACandidate | apps/api/src/sync-coordinator/domain/health-policy.ts:84-130 | Each flush leaves fewer candidates for the next. |
| Health.AtMostThreeFlushes | apps/api/src/sync-coordinator/domain/health-policy.ts:84-130 | Iterating the schedule reaches none in at most three flushes. |
| RequestCache.ContextRequestCache.SyncContext | apps/obsidian-plugin/src/app/context-request-cache.ts:17-22 | A changed key starts a new generation; an unchanged one changes nothing. |
| RequestCache.ContextRequestCache.Invalidate | apps/obsidian-plugin/src/app/context-request-cache.ts:24-29 | Invalidating starts a new generation and forgets the pending run and the check time. |
| RequestCache.ContextRequestCache.Request | apps/obsidian-plugin/src/app/context-request-cache.ts:31-45 | A request joins the pending run, is answered from a recent check, or starts a run of the current generation. |
| RequestCache.ContextRequestCache.Settle | apps/obsidian-plugin/src/app/context-request-cache.ts:55-62 | A run settles the cache only if it is of the current generation. |
| RequestCache.OnlyFreshResultsAreApplied | apps/obsidian-plugin/src/app/context-request-cache.ts:31-62 | In every interleaving a result is applied only under the context key it was loaded under. |
| RequestCache.PendingIsTheCurrentRun | apps/obsidian-plugin/src/app/context-request-cache.ts:31-65 | A pending run is always an unfinished one of the current generation. |
| RequestCache.SupersededRunsAreHarmless | apps/obsidian-plugin/src/app/context-request-cache.ts:45-62 | Whatever a superseded run does, it neither clears nor timestamps a newer one. |
| RequestCache.FreshAnswersAreRecent | apps/obsidian-plugin/src/app/context-request-cache.ts:37-42 | A request is answered without loading only if the current context was checked within the interval. |
| RequestCache.RecentChecksSuffice | apps/obsidian-plugin/src/app/context-request-cache.ts:35-45 | A request is answered without loading if and only if it is unforced, the context unchanged, nothing pending and the last check within the interval; else it joins the pending run or starts one. |
| RequestCache.SettlingStartsTheInterval | apps/obsidian-plugin/src/app/context-request-cache.ts:55-62 | A run that settles in its own generation makes unforced requests do without loading for just the interval that follows. |
| RequestCache.EndedRunsSettle | apps/obsidian-plugin/src/app/context-request-cache.ts:49-62 | The pending run settles once its load has ended, well or not. |
| RequestCache.EachRunReportsOnce | apps/obsidian-plugin/src/app/context-request-cache.ts:49-62 | In every interleaving a run reports success at most once, failure at most once and only after that, and settles at most once. |
| EntryPolicy.HistoryIsCapturedOnce | apps/api/src/sync-coordinator/domain/entry-policy.ts:49-67 | A commit keeps no history for a first version, a forced copy, or one automatic copy filed under the five-minute bucket that holds now; a delete always forces one, and an upsert keeps exactly the forced copy its caller asks for. |
| EntryPolicy.PurgeNeedsHistory | apps/api/src/sync-coordinator/domain/entry-policy.ts:96-117 | History is purged exactly if the entry is deleted, still at the revision seen, and has history to restore from; each refusal says which of these failed first. |
| EntryPolicy.AppliedAtMostOnce | apps/api/src/sync-coordinator/domain/entry-policy.ts:36-47 | Over any submissions by any clients the applied mutations have bases 0, 1, 2, ... without a gap, so none is applied twice on one base. |
| EntryPolicy.LatestIsIdempotent | apps/api/src/sync-coordinator/domain/entry-policy.ts:36-38 | Resubmitting the latest applied mutation is answered as accepted and changes nothing. |
| EntryPolicy.OldSubmissionsNeverReapply | apps/api/src/sync-coordinator/domain/entry-policy.ts:36-47 | Resubmitting any applied mutation on its original base never applies it again. |
| EntryPolicy.SameIdAppliesAgainOnANewBase | apps/api/src/sync-coordinator/domain/entry-policy.ts:36-47 | A concrete run in which one mutation id is applied twice, on two bases. |
| EntryPolicy.AppliesExactlyOnTheCurrentBase | apps/api/src/sync-coordinator/domain/entry-policy.ts:36-47 | A submission applies if and only if its blob is ready and it is made on the present revision and is not the mutation that produced it. |
| SyncStore.InMemorySyncStore.GetOrCreateEntry | packages/sync-client/src/test-support/in-memory-sync-store.ts:414-433 | An unknown entry starts with no rows, no dirty mutation and an empty deleted base. |
| SyncStore.InMemorySyncStore.ApplyRemoteState | packages/sync-client/src/test-support/in-memory-sync-store.ts:89-95 | The remote row is replaced, and the base takes over its path, revision, blob, hash and deletion unless a mutation is dirty. |
| SyncStore.InMemorySyncStore.MarkEntryDirty | packages/sync-client/src/test-support/in-memory-sync-store.ts:223-239 | The mutation becomes the dirty one, the base its base revision, blob and hash under the remote row's path; refused, changing nothing, exactly when a required base blob is not cached under the base hash. |
| SyncStore.InMemorySyncStore.ApplyAcceptedPushBatch | packages/sync-client/src/test-support/in-memory-sync-store.ts:346-410 | The loop acknowledges the accepted mutations in order and caches their blobs; each distinct entry ends with the pushed path, revision, blob and hash in its remote and base rows; unreadable metadata stops the batch with that entry half updated and only the earlier blobs cached. |
| SyncStore.BatchIsPointwise | packages/sync-client/src/test-support/in-memory-sync-store.ts:346-410 | A batch over distinct entries acknowledges each on its own and touches no other. |
| SyncStore.AcknowledgedRows | packages/sync-client/src/test-support/in-memory-sync-store.ts:346-398 | Field by field: the remote and base rows of an acknowledged push are what was pushed at the revision given, without content for a delete; the local row follows an upsert unless it has moved on. |
| SyncStore.MetadataOpensForItsMutation | packages/sync-client/src/test-support/in-memory-sync-store.ts:382-406 | A mutation's metadata opens exactly under the vault's key for its own entry, operation, blob and base revision. |
| SyncStore.NewerEditSurvives | packages/sync-client/src/test-support/in-memory-sync-store.ts:382-406 | A newer edit survives the acknowledgment of an older push with the same change and metadata, on the accepted revision, blob and hash and sealed for it; it fails exactly when its metadata does not open. |
| SyncStore.NewerLocalRowSurvives | packages/sync-client/src/test-support/in-memory-sync-store.ts:364-380 | Acknowledging a push never overwrites the local row of a newer change or of a removal. |
| Convergence.CommitKeepsInv | apps/api/src/sync-coordinator/domain/entry-policy.ts:27-68 | In a safe state the server accepts the mutation in flight, and handling it again changes nothing. |
| Convergence.SingleWriterConverges | packages/sync-client/src/test-support/in-memory-sync-store.ts:223-410 | Over any safe interleaving of edits, removals, pushes, repeated commits, replies, lost replies, late arrivals, pulls and blocks no push is answered as stale, and whenever nothing is dirty or in flight the remote and base rows equal the server's entry in path, revision, blob, hash and deletion, and nothing that arrives late changes anything. |
| Convergence.AcknowledgedRunsNeverStale | packages/sync-client/src/test-support/in-memory-sync-store.ts:346-410 | While every push is acknowledged before the next, every run is safe, with no further condition. |
| Convergence.LastEditWins | packages/sync-client/src/sync/engine/push-service.ts:207-283 | One round of pushing, an ordinary run, leaves from any safely reached state nothing to push and the rows converged; and the server then holds what the user last made of the entry if and only if that was not a removal, before any revision was known, during a push. |
| Convergence.RemovalGuard | packages/sync-client/src/sync/engine/event-recorder.ts:254-276 | That case is one the caller can test as it removes the file: no revision is known yet and a push is in flight. |
| Convergence.RemovalDuringFirstPushIsUndone | packages/sync-client/src/sync/engine/event-recorder.ts:254-296 | A concrete run without any lost reply: a new file is removed while its first push is in flight, and comes back at the server and in the local row. |
| Convergence.SafeExactlyWhenNextPushIsAccepted | packages/sync-client/src/sync/core/mutation-queue.ts:61-97 | In every safely reached state a step is safe if and only if pushing after it is neither stale nor silently out of date, whatever lost mutation arrives at the server first. |
| Convergence.EditAfterLostReplyIsStale | packages/sync-client/src/sync/engine/event-recorder.ts:129-137 | A concrete run: a reply is lost, the file is edited before a pull, and that edit is refused as stale. |
| Convergence.LateArrivalMakesEditStale | packages/sync-client/src/sync/remote/realtime-socket-session.ts:157-200 | A concrete run: a push times out before the server saw it, the file is edited, the server handles the first push after all, and the edit is refused as stale. |
| SyncEffects.WritesExactly | packages/sync-client/src/sync/engine/event-recorder.ts:129-175 | A write makes a pending upsert of the new content on the remote row's revision, blob and hash, sealed for the next revision, and shows it locally. |
| SyncEffects.RemovesExactly | packages/sync-client/src/sync/engine/event-recorder.ts:254-296 | Removing a visible file makes a pending delete on the remote row, or forgets an entry no revision of which is known. |
| SyncEffects.PushesExactly | packages/sync-client/src/sync/engine/push-service.ts:207-283 | A push sends exactly a pending mutation whose metadata opens, when none is on its way. |
| SyncEffects.HandlesExactly | apps/api/src/sync-coordinator/domain/entry-policy.ts:27-68 | The server accepts its latest mutation again, refuses one on another revision as stale, and else writes the row at the next revision, without content for a delete. |
| SyncEffects.SettlesExactly | packages/sync-client/src/sync/engine/push-service.ts:207-283 | A stale reply changes no row; an accepted one acknowledges what was pushed at the revision given. |
| SyncEffects.PullsExactly | packages/sync-client/src/test-support/in-memory-sync-store.ts:89-95 | A pull takes over the server's row whose metadata opens for it; the base follows unless something is dirty. |
| BlobPolicy.EarliestGcDeadline | apps/api/src/sync-coordinator/domain/blob-gc-policy.ts:89-100 | The earliest deadline, never answered as earlier than now. |
| BlobPolicy.StagedExactly | apps/api/src/sync-coordinator/domain/blob-policy.ts:37-105 | A blob is staged exactly if it fits the file limit and is either new and within the quota or known, unpinned and of the same size; only a new one counts; each refusal has its own condition. |
| BlobPolicy.MarkedExactly | apps/api/src/sync-coordinator/domain/blob-gc-policy.ts:64-82 | A blob is marked for deletion exactly if it is past staging and unreferenced, at once unless an earlier deadline stands. |
| BlobPolicy.CollectedExactly | apps/api/src/sync-coordinator/domain/blob-gc-policy.ts:41-62 | A blob is collected exactly if it is not live, its deadline has come and nothing refers to it. |
| BlobPolicy.MarkedIsCollectible | apps/api/src/sync-coordinator/domain/blob-gc-policy.ts:41-82 | Marking an unpinned blob never postpones its deadline and makes it collectible at once. |
| BlobLedger.StageKeepsInv | apps/api/src/sync-coordinator/application/services/blob-record-operations.ts:17-60 | Staging keeps the ledger exact, changes nothing for a referenced blob, and never finds one still staged. |
| BlobLedger.MutationKeepsInv | apps/api/src/sync-coordinator/application/services/mutation-service.ts:135-231 | A commit's statements, with the entry, its history and both blobs half updated in between, keep every reference recorded. |
| BlobLedger.AcceptedMeansRecorded | apps/api/src/sync-coordinator/application/services/mutation-service.ts:88-242 | An accepted mutation is its entry's latest at the revision answered; any other answer means that nothing changed. |
| BlobLedger.PurgeIsExact | apps/api/src/sync-coordinator/application/services/entry-service.ts:418-500 | A purge drops the history of one deleted entry at its present revision and nothing else. |
| BlobLedger.LedgerIsExact | apps/api/src/sync-coordinator/application/services/blob-record-operations.ts:17-104 | After any run: counted bytes equal recorded bytes and stay within a fixed non-zero limit, no recorded blob exceeds a non-zero file limit, no blob of a current entry or of unexpired history was removed, a blob is live exactly while a current entry has it and otherwise has a deadline, and the vault is never paused. |
| BlobLedger.RestagingNeverDoubleCounts | apps/api/src/sync-coordinator/domain/blob-policy.ts:70-104 | Staging a blob again changes neither the counted bytes nor its size nor its creation time. |
| BlobLedger.ForcedHistoryHoldsTheReplacedBlob | apps/api/src/sync-coordinator/application/services/mutation-service.ts:170-186 | A forced copy holds the replaced blob until the retention period ends. |
| BlobLedger.HistoryKeepsItsBlob | apps/api/src/sync-coordinator/domain/blob-gc-policy.ts:84-87 | A kept version survives until it expires unless its entry is purged, and until then its blob stays recorded. |
| BlobLedger.LateDeletionLosesExactlyPinnedBlobs | apps/api/src/sync-coordinator/application/services/blob-service.ts:85-113 | Deletion on request loses a referenced blob if and only if the blob came to be referenced after its deletion was allowed. |
| BlobLedger.CommitBetweenCheckAndDeletion | apps/api/src/sync-coordinator/application/services/blob-service.ts:93-111 | A concrete run in which a commit between the check and the deletion leaves an entry without its blob's record. |
| BlobLedger.PolicyMatchesCollectionGuard | apps/api/src/sync-coordinator/adapters/outbound/sqlite/blob-collectability.ts:21-26 | The SQL guard of collection is the policy's decision. |
| BlobLedger.CollectionIsNeverLate | apps/api/src/sync-coordinator/adapters/outbound/sqlite/blob-gc-queries.ts:42-75 | Whatever becomes collectible without further changes becomes so no earlier than the next scheduled run. |
| BlobLedger.CollectionAlwaysFindsWork | apps/api/src/sync-coordinator/adapters/outbound/sqlite/blob-gc-queries.ts:42-75 | At its scheduled time a collection finds an expired version or a collectible blob. |
| BlobEffects.StagesExactly | apps/api/src/sync-coordinator/application/services/blob-record-operations.ts:17-60 | In rows and numbers: when a blob is staged, with which row, deadline and bytes counted; the vault pauses exactly for a referenced blob staged an hour ago. |
| BlobEffects.AnswersExactly | apps/api/src/sync-coordinator/application/services/mutation-service.ts:88-242 | Which answer a mutation gets, condition by condition; only one newly accepted changes anything. |
| BlobEffects.MutatesExactly | apps/api/src/sync-coordinator/application/services/mutation-service.ts:135-231 | An applied mutation writes its entry at the next revision, makes its blob live without a deadline, puts the replaced blob up for collection unless another entry has it, and changes no other entry or blob. |
| BlobEffects.KeepsExactly | apps/api/src/sync-coordinator/application/services/mutation-service.ts:170-219 | It keeps a forced copy of what it replaces, or the first automatic copy of its five minutes of what it writes, until the retention period ends, and all history before it. |
| BlobEffects.CommitsInOrder | apps/api/src/sync-coordinator/application/services/mutation-service.ts:71-87 | A batch commits in order, and a mutation whose identifier came earlier in it changes nothing. |
| BlobEffects.PurgesExactly | apps/api/src/sync-coordinator/application/services/entry-service.ts:418-500 | A purge happens exactly for a deleted entry at the revision seen with unexpired content to restore, and drops every version of it and no other. |
| BlobEffects.ReleasesExactly | apps/api/src/sync-coordinator/application/services/blob-record-operations.ts:62-77 | A release removes exactly a staged, unreferenced blob and uncounts its bytes. |
| BlobEffects.RetiresExactly | apps/api/src/sync-coordinator/application/services/blob-record-operations.ts:78-95 | A blob past staging and unreferenced is put up for collection, at once or at its earlier deadline; no other row changes. |
| BlobEffects.CollectsExactly | apps/api/src/sync-coordinator/adapters/outbound/sqlite/blob-collectability.ts:21-26 | A collection removes exactly the blobs given to it that are not live, due and unreferenced, and uncounts their bytes. |
| BlobEffects.DeletesExactly | apps/api/src/sync-coordinator/application/services/blob-service.ts:85-113 | A deletion is allowed exactly for an unreferenced recorded blob, and removes the record when it comes to it. |
| VaultCrypto.UnwrapInvertsWrapExactly | packages/vault-crypto/src/crypto.ts:44-93 | A wrapped key comes back exactly under its password and, when bound, for its vault and user; wrapping fails exactly on a wrong key length or a bad password. |
| VaultCrypto.UnwrapRevealsOnlyTheSealedKey | packages/vault-crypto/src/crypto.ts:63-93 | Whatever opens holds the sealed key, under the password and binding it was sealed with. |
| VaultCrypto.WrappedFormat | packages/vault-crypto/src/crypto.ts:44-62 | A key is wrapped in version 2 if bound, else 1, at key version 1, with Argon2id over 64 MiB in three passes and AES-256-GCM authenticating the binding. |
| VaultCrypto.OnlyTheFormatOpens | packages/vault-crypto/src/crypto.ts:63-130 | An envelope of another version, key version, algorithm or derivation, or with a missing binding, never opens. |
| VaultCrypto.TransferInvertsExactly | packages/vault-crypto/src/key-transfer.ts:77-165 | A transferred key comes back exactly for its receiver, request, vault, user and access version, and never for a version below one. |
| VaultCrypto.TransfersOpenExactly | packages/vault-crypto/src/key-transfer.ts:137-165 | Whatever transfer opens is of version 1 and RSA-OAEP with SHA-256, sealed to this receiver and complete context, and holds a 32-byte key. |
| SharingStore.DrizzleSharingStore.AcceptInvitation | apps/api/src/sharing/adapters/drizzle-sharing-store.ts:227-270 | Four statements, each testing the invitation again, amount to one guarded step. |
| SharingStore.DrizzleSharingStore.RemoveOrganizationMember | apps/api/src/sharing/adapters/drizzle-sharing-store.ts:295-314 | Five statements amount to one step over every vault of the organization. |
| SharingStore.DrizzleSharingStore.CreateKeyRequest | apps/api/src/sharing/adapters/drizzle-sharing-store.ts:362-376 | Open requests of the same vault and user are canceled and the new one added, or nothing changes when the id is taken. |
| SharingStore.DrizzleSharingStore.CompleteKeyRequest | apps/api/src/sharing/adapters/drizzle-sharing-store.ts:418-477 | Three statements, each testing the request again, all fire or none does. |
| SharingStore.DrizzleSharingStore.UpsertPasswordWrapper | apps/api/src/vault/adapters/outbound/drizzle-vault-store.ts:403-439 | Two statements under one authorization replace the wrapper and cancel open requests. |
| SharingStore.DrizzleSharingStore.CreateVaultForUser | apps/api/src/vault/adapters/outbound/drizzle-vault-store.ts:178-215 | Three statements create the vault with its creator's wrapper and grant, or nothing. |
| SharingStore.AcceptanceIsAllOrNothing | apps/api/src/sharing/adapters/drizzle-sharing-store.ts:227-270 | Acceptance leaves the user a member and every live vault shared and queued, exactly when the invitation was live, and never works twice. |
| SharingStore.RemovalClosesEverything | apps/api/src/sharing/adapters/drizzle-sharing-store.ts:295-314 | Removal leaves no usable grant, wrapper or open request in any of the organization's vaults and touches nobody else. |
| SharingStore.CompletionIsOnce | apps/api/src/sharing/adapters/drizzle-sharing-store.ts:418-477 | Completion happens exactly when its guard holds, leaves wrapper, grant and request in agreement, and never twice. |
| SharingStore.ApprovalEndsWithItsParties | apps/api/src/sharing/adapters/drizzle-sharing-store.ts:377-399 | No approval once the approver or the recipient is removed or the approver demoted, and no completion once the recipient is removed. |
| SharingStore.PruningClosesExpired | apps/api/src/sharing/adapters/drizzle-sharing-store.ts:33-43 | Pruning closes exactly the expired open requests and with them every expired ciphertext. |
| SharingEffects.InvitesExactly | apps/api/src/sharing/adapters/drizzle-sharing-store.ts:203-219 | A free seat and an email no member or live invitation of the organization has are all an invitation needs; it lives for 48 hours; no other row changes. |
| SharingEffects.AcceptsExactly | apps/api/src/sharing/adapters/drizzle-sharing-store.ts:227-270 | Column by column: acceptance adds the membership, shares each present vault not yet shared, queues every present one, and changes no other row. |
| SharingEffects.ClaimsExactly | apps/api/src/sharing/adapters/drizzle-sharing-store.ts:24-32 | A delivery is claimed exactly if the invitation had none for 60 seconds and the organization fewer than twenty for an hour. |
| SharingEffects.EnrollsExactly | apps/api/src/sharing/adapters/drizzle-sharing-store.ts:272-284 | A first grant has version one, one after a revocation the next version, and one that is not revoked stays. |
| SharingEffects.RemovesExactly | apps/api/src/sharing/adapters/drizzle-sharing-store.ts:295-314 | Column by column: removal moves the user's grants to their next version, revokes wrappers, cancels requests and queues vaults of the organization, and changes no other row. |
| SharingEffects.RequestsExactly | apps/api/src/sharing/adapters/drizzle-sharing-store.ts:362-376 | A new request cancels exactly the open ones of the same vault and user. |
| SharingEffects.ApprovesExactly | apps/api/src/sharing/adapters/drizzle-sharing-store.ts:377-399 | Approval happens exactly for a pending unexpired request, a managing approver with an active grant, a present vault and a recipient whose grant has the version; it writes one row. |
| SharingEffects.CompletesExactly | apps/api/src/sharing/adapters/drizzle-sharing-store.ts:418-477 | Completion happens exactly for an approved unexpired request of a member whose grant has the version; it writes one wrapper, one grant and one request. |
| SharingEffects.PasswordChangesExactly | apps/api/src/vault/adapters/outbound/drizzle-vault-store.ts:403-439 | A password change happens exactly for a member with an active grant of a present vault at its key version; it writes one wrapper and closes the user's open requests. |
| SharingEffects.CreatesVaultExactly | apps/api/src/vault/adapters/outbound/drizzle-vault-store.ts:178-215 | A vault is created exactly by a manager within the plan, shared from the start exactly if the organization has others. |
| SharingService.AdministersExactly | apps/api/src/sharing/adapters/drizzle-sharing-store.ts:21-43 | What each statement that runs outside calls leaves in the tables; the others run only inside calls. |
| SharingCalls.Service.RequireVault | apps/api/src/sharing/application/service.ts:50-68 | Succeeds exactly for a live vault, a membership, management if asked, and a grant that is active or may still be pending. |
| SharingCalls.Service.StartKeyRequest | apps/api/src/sharing/application/service.ts:347-383 | Success stores the request and returns it; a new one awaits approval for the grant as it stands and is the user's only open one; a failure changes nothing but the enrollment. |
| SharingCalls.Service.ApproveKeyRequest | apps/api/src/sharing/application/service.ts:384-409 | Succeeds exactly for a manager with an active grant and another member's pending request; the transfer is then stored for a recipient still enrolled under the request's version; a failure changes nothing. |
| SharingCalls.Service.CompleteKeyRequest | apps/api/src/sharing/application/service.ts:410-452 | Succeeds exactly when it may, and then wrapper and request agree, the wrapper is version 2, bound to this vault and user and at its key version, the grant is active and the vault queued; repeating it, or failing, changes nothing. |
| SharingCalls.Service.Invite | apps/api/src/sharing/application/service.ts:132-170 | Succeeds exactly for those who may invite to a free seat, leaving one more live invitation, the only one for its email, within the limit; a failure changes nothing. |
| SharingCalls.Service.Respond | apps/api/src/sharing/application/service.ts:249-289 | Succeeds exactly for the invited email and a live or accepted invitation; accepting leaves a member with every live vault shared and queued; a failure changes nothing. |
| SharingCalls.Service.ChangeMember | apps/api/src/sharing/application/service.ts:290-327 | Removal leaves no membership and in no vault of the organization a usable grant, a wrapper or an open request; owners are protected; a failure changes nothing. |
| SharingCalls.CompleteMeans | apps/api/src/sharing/application/service.ts:410-452 | Completion succeeds exactly when it may, leaves wrapper, grant and request in agreement, and repeating it with the same wrapper succeeds and changes nothing; an envelope not of version 2, for this vault and user, at the vault's key version never replaces a wrapper. |
| SharingCalls.RespondMeans | apps/api/src/sharing/application/service.ts:249-289 | An accepted invitation is answered again without effect; accepting and rejecting leave just what they should. |
| SharingCalls.TrimmedExactly | apps/api/src/sharing/application/service.ts:132-140 | Trimming an invited email drops its outer spaces, all of them and nothing else. |
| SharingAlone.UndisturbedCall | apps/api/src/sharing/application/service.ts:132-452 | A call that nobody interrupts, among any other calls under way, succeeds exactly if its method does and leaves what the method leaves. |
| SharingReturn.ReturnedMemberAndChecks | apps/api/src/sharing/application/access.ts:26-43 | While a member is removed, invited again and accepts, an access check that read the grant before answers with the old version, which is dead; one made afterwards is denied. |
| SharingSafety.KeyRequestRulesKept | apps/api/src/sharing/adapters/drizzle-sharing-store.ts:362-477 | Every statement keeps: at most one open request for each vault and user, ciphertext exactly while approved, no self-approval. |
| SharingSafety.ViewChanges | apps/api/src/sharing/adapters/drizzle-sharing-store.ts:272-314 | Every statement moves one grant, its removals and its activation by one of six transitions. |
| SharingSafety.ThreadProceeds | apps/api/src/sharing/application/service.ts:132-452 | Wherever a call's interleaved reads take it, the statement it runs is justified by what it read. |
| SharingSafety.RunKeepsInv | apps/api/src/sharing/application/service.ts:132-452 | Every interleaving of calls, administration and time keeps the rules. |
| SharingEpochs.EpochsOnlyAdvance | apps/api/src/sharing/adapters/drizzle-sharing-store.ts:272-314 | In any run a grant's access version never decreases, and a version once dead stays dead. |
| SharingEpochs.DeadVersionNeverCompletes | apps/api/src/sharing/application/service.ts:347-383 | A version read when there was no grant, or from a revoked one, never completes a request. |
| SharingEpochs.CompletionMeansNoRemovalSince | apps/api/src/sharing/adapters/drizzle-sharing-store.ts:418-477 | A request can complete only if its user was never removed from the vault since its version was read. |
| SharingEpochs.KeyRequestsObeyTheirRules | apps/api/src/sharing/adapters/drizzle-sharing-store.ts:362-477 | The key-request rules hold in every reachable state. |
| SharingEpochs.ChecksAreExact | apps/api/src/sharing/application/access.ts:14-43 | Whatever runs between its reads, an access check answers exactly if each read admits it, and refuses as suspended exactly if only the last read does not. |
| SharingEpochs.UndisturbedCheckIsExact | apps/api/src/sharing/application/access.ts:14-43 | An undisturbed check admits exactly active members of a live vault that is unshared or whose sharing is on; it answers suspended exactly if only sharing is off. |
| SharingEpochs.CheckedVersionIsCurrentOrDead | apps/api/src/sharing/application/access.ts:26-43 | Whatever runs between the reads of an access check, the version it answers with is the user's own until the next removal after the grant was read, and dead from then on. |
| SharingEpochs.AccessAfterRemovalIsNew | apps/api/src/sharing/application/access.ts:26-43 | However a check's reads fall around a removal: if it read a membership afterwards the user has joined again, if it read the grant afterwards the user has completed a request whose version was read after the removal, and if it read the grant before, the version it answers with is dead. |
| SharingEpochs.OwnersStay | apps/api/src/sharing/application/service.ts:290-319 | In any run an organization's owner stays its owner and nobody else becomes one. |
| SharingEpochs.AnswersAreFinal | apps/api/src/sharing/adapters/drizzle-sharing-store.ts:220-270 | In any run an accepted, rejected or canceled invitation never changes again. |
| SharingWrappers.RequestedWrappersAreBound | apps/api/src/sharing/application/service.ts:410-452 | In every run, with any clients, a wrapper that a key request wrote last is an envelope of version 2 for its own vault and user at the vault's key version. |
| SharingLimits.SeatsStayWithinTheLimit | apps/api/src/sharing/adapters/drizzle-sharing-store.ts:203-270 | Members plus live invitations never exceed a fixed non-zero limit across any run, and no organization has two live invitations for one email. |
| SharingLimits.DeliveriesStayWithinTheRate | apps/api/src/sharing/adapters/drizzle-sharing-store.ts:24-32 | Every hour-long window of the log, wherever it ends, holds at most twenty deliveries of an organization, and two deliveries of one invitation are a minute apart. |
| SharingRefresh.NoRefreshIsLost | apps/api/src/sharing/application/refresh.ts:8-24 | With any number of flushers and failures, a vault without an outbox row has a coordinator that saw the version of every removal. |
| SharingTokens.TokensAreRefusedExactly | apps/api/src/sync-coordinator/application/services/sync-access-service.ts:126-135 | Once a vault has left the outbox its coordinator refuses a token exactly if the user was removed since the version it carries was read and the block recorded for that is still in force. |
| SharingTokens.TokensFromBeforeARemovalAreRefused | apps/api/src/sync-coordinator/application/services/sync-access-service.ts:69-101 | A token minted before its user was removed is refused from the moment the vault leaves the outbox until the token expires: the block, which expires too, outlasts it. |
| SharingTokens.OutdatedTokensAreRefusedForLifeExactly | apps/api/src/sync-coordinator/application/services/sync-access-service.ts:126-135 | Once its vault has left the outbox, a token of a user removed since its version was read is refused for the rest of its life, without a new recording, if and only if it expires no later than the recorded block. |
| SharingTokens.TokensMintedByTheRecordingAreCovered | apps/api/src/sync-coordinator/application/services/sync-access-service.ts:69-101 | A token minted no later than a recording of its user's version expires no later than the block, in every run afterwards, so it meets that condition. |
| SharingTokens.LateTokenOutlivesItsBlock | apps/api/src/sync-access/application/services/sync-token-service.ts:34-62 | A token checked before a removal but minted after the coordinator recorded it outlives the block: it is then accepted although its user is no member. |
| SharingTokens.MembersWithAccessAreReached | apps/api/src/vault/adapters/outbound/drizzle-vault-store.ts:178-215 | The states the previous row starts from are reached as soon as an admin has created a vault. |
| SharingRefresh.ChangeQueuedDuringAFlushSurvives | apps/api/src/sharing/application/refresh.ts:14-17 | A change queued while a flusher works survives the completion of what the flusher listed. |
| SharingRefresh.UndisturbedFlushClears | apps/api/src/sharing/application/refresh.ts:8-24 | An undisturbed flush removes a live vault from the outbox. |
| SharingRefresh.FlushSharingRefreshes | apps/api/src/sharing/application/refresh.ts:8-24 | One flush finishes the tasks whose coordinator call succeeds, keeps the others, and is complete exactly when all succeed. |
| SharingRefresh.FlushDropsExactlyFinishedRows | apps/api/src/sharing/adapters/drizzle-sharing-store.ts:316-328 | A flush drops exactly the rows it listed, finished and found unchanged. |
| RefreshEffects.RecordsExactly | apps/api/src/sync-coordinator/application/services/sync-access-service.ts:69-101 | A recording keeps for each user with a version above one the higher version and the later end; a block lasts a token's lifetime, at least two minutes; no other block changes. |
| RefreshEffects.RefusesExactly | apps/api/src/sync-coordinator/application/services/sync-access-service.ts:126-135 | A token is refused exactly while the block on its user lasts and asks for a later version. |
| RefreshEffects.MintsExactly | apps/api/src/sync-access/application/services/sync-token-service.ts:34-62 | A token is minted exactly from an answered check, once, with the version read, and lives its lifetime from the last full second. |
| RefreshEffects.FlushReadsExactly | apps/api/src/sharing/application/refresh.ts:8-17 | A flusher takes rows of the outbox as they are and reads every user's version of a present vault. |
| RefreshEffects.FlushFinishesExactly | apps/api/src/sharing/adapters/drizzle-sharing-store.ts:316-328 | Finishing removes the row exactly if it has not changed since it was listed; skipping keeps it. |
| KeyDeliverySafety.FleetStepKeepsInv | packages/sync-client/src/sharing/manager.ts:52-182 | Every step of a device or of the service, crashes included, keeps what is known of a vault's key. |
| KeyDeliverySafety.UnlockKeepsInv | packages/sync-client/src/sharing/manager.ts:140-155 | Whatever a recipient unlocks, from its prepared wrapper or from the transfer, is the vault's key. |
| KeyDeliverySafety.ApproveKeepsInv | packages/sync-client/src/sharing/manager.ts:98-120 | What an approver sends seals the vault's key to the request's own receiver and context. |
| DataKey.OneDataKeyForEver | packages/sync-client/src/sharing/manager.ts:98-182 | A vault's key never changes; every unrevoked wrapper opens to it with its own password and binding and no other password; every session holds it; every stored transfer gives it to its receiver. |
| DataKey.NoSecondWrapper | packages/sync-client/src/sharing/manager.ts:157-166 | Every completion ever sent for a request carries the same wrapper. |
| DataKey.CompletedMeansPrepared | packages/sync-client/src/sharing/manager.ts:121-170 | A completed request that matches the stored receiver was completed with what that receiver prepared, and unless the password changed since, that is the server's wrapper. |
| KeyReceipt.ReceiveSucceeds | packages/sync-client/src/sharing/manager.ts:121-170 | From an approved request, with a wrapper prepared before an interruption or not, receiving stores that wrapper, activates the grant, completes the request and clears the receiver. |
| KeyReceipt.RetrySucceeds | packages/sync-client/src/sharing/manager.ts:121-170 | After a lost reply, receiving again with the same password succeeds and changes no table. |
| KeyHandover.KeyReachesTheMember | packages/sync-client/src/sharing/manager.ts:52-170 | From every reachable state, once a member asks and a manager with an open session approves, the member's password opens the vault's key, whatever other calls are under way. |
| KeyHandover.ReadyIsReached | apps/api/src/vault/adapters/outbound/drizzle-vault-store.ts:178-215 | A concrete run of four steps reaches the states the previous row starts from. |
| KeySteps.ReceivesExactly | packages/sync-client/src/sharing/manager.ts:121-170 | A device sends a completion exactly if the password is one, its receiver and request are unexpired and belong together, and the prepared wrapper or the approved transfer opens; what it sends is what it stored, and one prepared here opens only so to the very key that was sealed. Otherwise nothing changes. |
| KeySteps.FinishesExactly | packages/sync-client/src/sharing/manager.ts:164-169 | Success forgets the receiver, failure keeps it. |
| KeySteps.AsksExactly | packages/sync-client/src/sharing/manager.ts:52-68 | An unexpired receiver is kept, a fresh one for 48 hours stored, before exactly its request is sent. |
| KeySteps.ForgetsExactly | packages/sync-client/src/sharing/manager.ts:69-75 | An answered request is forgotten exactly if it is the device's own and canceled or expired. |
| KeySteps.ApprovesOnDeviceExactly | packages/sync-client/src/sharing/manager.ts:98-120 | The approver sends exactly for another user's request of its vault with the matching code; what it sends opens only for the request's receiver and context, to the session's key. |
| KeySteps.OpensSessionExactly | packages/sync-client/src/remote-vault/manager.ts:239-270 | A session opens exactly if the account's unrevoked wrapper opens for this vault and user; it holds that key and nothing else changes. |
| KeySteps.ChangesPasswordExactly | packages/sync-client/src/sharing/manager.ts:171-182 | A new password is written exactly with a session, a password and the service's consent, and the wrapper opens with it for this vault and user only, to the session's key. |
| KeySteps.CreatesVaultOnDeviceExactly | apps/api/src/vault/adapters/outbound/drizzle-vault-store.ts:178-215 | A vault is created exactly with a fresh identifier, a 32-byte key, a password and the service's consent; its wrapper opens to that key with that password only. |
| KeyOverlap.ReceivesAgreeExactly | packages/sync-client/src/sharing/manager.ts:121-170 | With any number of receives, crashes and retries, opening one more leaves device and server in agreement for ever if and only if it does not overlap: another receive is under way, the stored receiver has no wrapper yet, and the server would still complete the request. |
| KeyOverlap.OverlappingReceivesPart | packages/sync-client/src/sharing/manager.ts:121-170 | Whoever overlaps can part for good from whichever receive was under way, one that has only read the receiver or one that has sealed a wrapper: the server holds one wrapper, the device has stored the other and is refused for ever. |
| KeyOverlap.ReadyDeviceCanPart | packages/sync-client/src/sharing/manager.ts:121-170 | From every state of the fleet in which a device can receive an approved request it has prepared nothing for, two receives opened together can part for good; the scene's key is what the stored transfer opens to. |
| KeyOverlap.OverlapIsReached | packages/sync-client/src/sharing/manager.ts:52-170 | Every handover reaches such a state: after asking and approving, two receives opened on the member's device overlap and can part for good. |
| SharingClient.SharingManager.Begin | packages/sync-client/src/sharing/manager.ts:52-77 | A fresh receiver is stored before anything is sent, an unexpired one is kept, and it is forgotten only when the request is over. |
| SharingClient.SharingManager.Receive | packages/sync-client/src/sharing/manager.ts:121-170 | What is sent is exactly the wrapper that was stored first; one prepared here opens, with this password for this vault and user only, to the very key sealed for this receiver and request; the exact condition of sending; the receiver is forgotten only on success and the buffer zeroed in every case. |
| SharingClient.SharingManager.Approve | packages/sync-client/src/sharing/manager.ts:98-120 | Approves exactly another user's pending unexpired request with a matching code; only that receiver and context open the result. |
| SharingClient.SharingManager.ChangePassword | packages/sync-client/src/sharing/manager.ts:171-182 | A new wrapper of the same key opens with the new password for this vault and user only. |
| SharingClient.FindPasswordWrapper | packages/sync-client/src/remote-vault/manager.ts:329-348 | The first usable wrapper of a user, or else the first usable one at all. |
| SharingClient.RemoteVaultManager.LoadBootstrapSession | packages/sync-client/src/remote-vault/manager.ts:239-270 | Succeeds exactly if the selected wrapper opens for this vault and its user and the host agrees, and then session and secret hold its key; otherwise nothing is stored and the key is zeroed. |

## Left out

- Floating point: the scheduler is over reals, so rounding and infinite or not-a-number inputs are not modelled.
- Timers, promises and event loops: they are steps that may happen at any time.
- A device of `KeyDelivery` does one thing at a time; what overlapping receives can do is in `KeyOverlap`, without
  a request that is started anew or a clock that advances while they run, and without
  the check of the password against a prepared wrapper, which only ends that receive.
- `SharingClient` runs each call on its own, with the network's answers given; what interleaving does to it is in
  `KeyDelivery`.
- Two entries under one path: a file written again after its entry was dropped is another entry of `Convergence`.
- Service guards that only refuse and are read from outside the tables: verified email, the sign-up allowlist,
  audit rows other than deliveries, email sending, plan names and prices.
- The 100-row limits of listings and the 1000-row batch of collection.
- Hard deletion of vaults, accounts and organizations with its cascades; vault deletion here only sets and clears
  the deletion mark.
- The coordinator's sockets and its suspension block; only the versions it blocks, and until when, are modelled.
- The clock tolerance of token verification, and tokens without an access version.
- Object storage: blob bytes and their deletion; the ledger is about records and references.
- `markEntryClean`, `clearDirtyEntryByMutationId`, `clearRemoteState` and `applyReconcileEntryUpdates` of the
  in-memory store, path lookups, and the pull's merging of conflicting edits.
- Password strength beyond emptiness and outer spaces, Unicode case folding beyond ASCII, base64 and JSON.
- The verification code is the pair it hashes: the receiver's key and the whole context.
- Legacy wrappers without a user, other than in the choice among wrappers.
- HTTP routes, request parsing, WebSockets, user interfaces and the command line.
