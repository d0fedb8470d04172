# Verification of the notes sync server

A Dafny model of the server's offline-sync engine and of the parts around it that race: the realtime queue and hub, the
upload lifecycle and the snapshot outbox. `dafny verify dfyconfig.toml` checks everything.

The sync engine applies a device's operations note by note. `NoteBatch` and `SyncService` follow the program: classes
whose methods change a `Store` of tables, a write-back cache with dirty and missing sets, savepoints, index loops. They
are proved equal to a reference executor (`DirectExecution`, `Transactions`) that has no cache, and everything else is
proved about that executor:

- `Verdicts`, `BatchVerdicts`, `RequestVerdicts`: what every operation, batch, push and pull is owed, said on the rows and
  not through the executor: when it is accepted, what it then writes, and which error or reason it gets otherwise.
- `Ledger`, `Runs`: the append-only history folds to the stored notes in every reachable database; snapshots, jobs,
  tombstones and versions.
- `Texts`: titles and block texts are compositions of the accepted deltas.
- `Requests`, `Retry`: one answer per note, independence of notes, and sending a request twice.
- `PullFeed`, `Replica`, `ClientState`, `Resend`, `Convergence`, `Deliveries`: drained pulls are exact, and devices that
  follow the protocol end with the server's notes and lose nothing accepted, also when requests or replies are lost;
  `SplitPage` and `EarlyPull` show what happens to those that do not.
- `Locking`, `LockSteps`, `Serial`, `Anomalies`: the same transactions interleaved statement by statement under row locks,
  and their equivalence to a serial run; `LockOrder`: who waits for whom.
- `Outbox`, `Uploads`, `RealtimeClient`, `RealtimeHub`: workers, cleanup passes, the writer goroutine and hub callers in
  any interleaving; `OutboxProgress`, `UploadAnswers`, `HubCalls`, `HubEndings`: that their calls achieve what they are for.

## Findings

Properties that hold only under a condition, each with a run that fails without it:

- A retried request is a no-op if no operation of a rejected note shares its id with an operation of a note accepted
  after it, which the first answers show: the idempotency key does not hold the note (`Retry.RetryIsNoOp`). Ids that name
  one note each always satisfy it (`Retry.OneNotePerIdSettles`). When rejected notes have one operation each, it is an if
  and only if (`Retry.RetryIsNoOpIff`).
- A device may push only after a page without more. Entries of one batch share a version, so a page that ends inside
  another device's batch goes unnoticed by the version check; an accepted push is safe if and only if the copy did not
  stop inside a batch (`Replica.AcceptedPushIsSafeIff`, `SplitPage`).
- A device that lost a reply may pull before it resends exactly when the page holds nothing of a note it waits for, if the
  server holds the batch (`Resend.EarlyPullIsSafeIff`): its own entries are never in its feed, so such a page brings later
  edits without the entries they were made on (`EarlyPull`). If the server does not hold the batch, any page is harmless
  (`Resend.EarlyPullOfUnsent`), but the device cannot know. documentation.md:291-297 does not mention it.
- A pull is complete if and only if no open transaction has inserted an entry at or below the new cursor, because
  sequences are assigned at insert and not at commit (`Locking.PullIsCompleteIff`, `Anomalies`).
- A document read without the row lock can be one the note never was. It is right if and only if the stored version is
  still that of the row when the read ends (`Locking.UnlockedReadIsRightIff`, `Anomalies.UnlockedReadTears`). Snapshot
  creation reads that way without looking again, so its promise of one consistent view (internal/jobs/worker.go:135-136)
  holds for atomic transactions, not at the default isolation level.
- A completed upload keeps its object if and only if no cleanup pass is about to remove one and no removal that timed out
  may still land (`Uploads.CompletedKeepsObjectIff`). The signed upload can be used again after a removal, so a completed
  row can lose its object although no path is overwritten (`Uploads.UploadAgainLosesObject`).
- Sync transactions never deadlock on device and note rows, but they can on categories, which are locked in client order,
  and on block ids inserted in opposite order (`LockOrder`).

Where code and documentation differ, the model follows the code:

- documentation.md:320-325 says a batch loads, edits and saves the complete note document; the code caches only touched
  rows and flushes the dirty ones.
- documentation.md:327-330 says the push endpoint also pulls and updates the device cursor; it does not.
- internal/realtime/client.go:67-70 says a hint fails when another message type fills the queue; it fails whenever one
  is waiting.
- internal/uploads/service.go:294-297 overwrites its row before the second read, so a delete that loses the cancel race
  reports the error instead of the deleted row.

## Model

| member | source | states |
|---|---|---|
| TextDeltas.ApplyTextDelta | internal/sync/services/block_operations.go:118-137 | accepts exactly the deltas whose index and delete count lie in the text, and returns the spliced text |
| TextDeltas.SpliceInverse | internal/sync/services/block_operations.go:118-137 | every accepted delta has an inverse that restores the text |
| TextDeltas.UndoAll | internal/sync/services/block_operations.go:118-137 | a whole list of accepted deltas is undone by their inverses, last first |
| TextDeltas.DisjointSplicesCommute | internal/sync/services/block_operations.go:118-137 | two edits of separate stretches give the same text in either order, once the later one is shifted |
| Texts.TextsAreCompositions | internal/sync/services/note_operations.go:117-133 | in every run each accepted delta was in range of the title or block text it met; the text is the earlier one with them applied in order, and their inverses, last first, bring the earlier one back |
| Texts.TextsFromCreation | internal/sync/services/note_operations.go:33-57 | in every run a title is that of the note's creation, and a block's text that of the entry that created it, alone or with its note, with every delta logged since applied in order, in the same request or later; each was in range, and their inverses bring back the created text |
| Texts.RunCreatesOnce | internal/sync/services/block_operations.go:14-50 | no run ever logs the creation of a block id that already exists |
| Ordering.SortSorts | internal/sync/services/operation_batch.go:14-23 | sorting yields a permutation ordered by note and then client sequence |
| Ordering.SortOrders | internal/sync/services/operation_batch.go:14-23 | the order on the operations themselves: rising notes, and rising client sequences within a note |
| Ordering.SortStable | internal/sync/services/operation_batch.go:14-23 | operations with equal note and sequence keep their request order |
| Ordering.SortIdempotent | internal/sync/services/operation_batch.go:86 | sorting a batch that Sync has already sorted changes nothing |
| Ordering.SortDependsOnKeysOnly | internal/sync/services/operation_batch.go:14-23 | two permutations of a request sort to the same list if and only if they agree within each (note, sequence) key |
| Ordering.SortIgnoresRequestOrder | internal/sync/services/operation_batch.go:14-23 | when (note, sequence) pairs are distinct the request order is irrelevant |
| Ordering.BatchesPartition | internal/sync/services/push_service.go:38-62 | the grouping loop partitions the sorted request; each batch holds one note and notes strictly increase, so no note has two batches |
| SyncStore.Store.Savepoint | internal/store/postgres.go:112-121 | a savepoint saves the tables as they are |
| SyncStore.Store.RollbackTo | internal/store/postgres.go:122-125 | rolling back restores everything but the sequence counter |
| SyncStore.Store.Release | internal/store/postgres.go:126-134 | releasing a savepoint leaves the tables alone |
| SyncStore.Store.Rollback | internal/store/postgres.go:98-105 | a failed transaction leaves only consumed sequence numbers |
| SyncStore.Store.CreateNote | db/queries/notes.sql:31-37 | inserts a note, or refuses when its id is taken by any owner |
| SyncStore.Store.UpdateNoteState | db/queries/notes.sql:39-48 | the full-row update writes only the owner's row |
| SyncStore.Store.DeleteNote | db/queries/notes.sql:50-58 | the version-guarded delete marks the row only at the expected version |
| SyncStore.Store.CreateBlock | db/queries/notes.sql:60-66 | inserts a block, or refuses when its id is taken |
| SyncStore.Store.UpdateBlockState | db/queries/notes.sql:68-78 | the full-row update writes only a row of that note |
| SyncStore.Store.DeleteBlock | db/queries/notes.sql:80-87 | marks a block of that note deleted and returns the marked row |
| SyncStore.Store.InsertNoteChange | db/queries/sync.sql:8-26 | appends one entry with the next sequence number |
| SyncStore.Store.EnqueueSnapshotJob | internal/store/jobs.go:27-43 | appends one snapshot job |
| SyncStore.Store.UpdateDeviceCursor | db/queries/devices.sql:41-47 | the owner's device keeps the larger of its stored and the new cursor, so it never moves backwards; every other device and every other table stays as it was |
| NoteBatch.NoteBatchState.EnsureNote | internal/sync/services/operation_batch.go:43-58 | loading the note once shows the note of the reference tables |
| NoteBatch.NoteBatchState.EnsureBlock | internal/sync/services/operation_batch.go:60-77 | loading a block, cached, missing or stored, shows the block of the reference tables |
| NoteBatch.Service.InsertChange | internal/sync/services/change_persistence.go:11-17 | the history row of an accepted operation |
| NoteBatch.Service.AcceptOperationChange | internal/sync/services/note_operations.go:135-143 | the history row moves the note from its version to the next, as the reference executor does |
| NoteBatch.Service.ExistingNoteInBatch | internal/sync/services/note_operations.go:60-73 | refuses a missing note and a wrong base version, exactly as the reference executor does |
| NoteBatch.Service.ModifyNoteProperty | internal/sync/services/note_operations.go:104-115 | the cached edit gives the reference step |
| NoteBatch.Service.ModifyNoteTitle | internal/sync/services/note_operations.go:117-133 | the cached title edit gives the reference step, with its out-of-range rejection |
| NoteBatch.Service.DeleteNote | internal/sync/services/note_operations.go:75-102 | the immediate delete gives the reference step and keeps earlier cached edits |
| NoteBatch.Service.ValidateNote | internal/sync/models/note_models.go:49-73 | accepts exactly the payloads whose blocks are valid and have distinct ids and positions |
| NoteBatch.Service.InsertBlocks | internal/sync/services/note_operations.go:42-52 | inserts all blocks of a new note, or reports a taken id |
| NoteBatch.Service.InsertNote | internal/sync/services/note_operations.go:33-57 | writes the new note and its blocks as the reference step, or rejects it |
| NoteBatch.Service.CreateNote | internal/sync/services/note_operations.go:13-58 | creating a note gives the reference step, with its conflicts and rejections |
| NoteBatch.Service.CreateBlock | internal/sync/services/block_operations.go:14-50 | the immediate insert gives the reference step |
| NoteBatch.Service.DeleteBlock | internal/sync/services/block_operations.go:52-82 | the immediate delete of a cached or uncached block gives the reference step |
| NoteBatch.Service.ModifyBlock | internal/sync/services/block_operations.go:84-115 | the cached block edit gives the reference step |
| NoteBatch.Service.CreateCategory | internal/sync/services/category_operations.go:71-86 | creating a category gives the reference step |
| NoteBatch.Service.DeleteCategory | internal/sync/services/category_operations.go:88-109 | deleting a category gives the reference step |
| NoteBatch.Service.ModifyCategory | internal/sync/services/category_operations.go:111-134 | renaming a category gives the reference step |
| NoteBatch.Service.ApplyOperation | internal/sync/services/category_operations.go:14-69 | idempotency lookup, envelope validation and dispatch give the reference step |
| NoteBatch.Service.EnqueueSnapshot | internal/sync/services/change_persistence.go:21-39 | a job is enqueued exactly when an enabled threshold is reached |
| NoteBatch.Service.Flush | internal/sync/services/operation_batch.go:132-141 | writing the cached note with its bumped version and the dirty blocks, in any order, yields the reference tables |
| NoteBatch.Service.ApplyOperations | internal/sync/services/operation_batch.go:94-115 | the loop stops where the reference executor stops, with the cache standing for its tables |
| NoteBatch.Service.ApplyOperationBatch | internal/sync/services/operation_batch.go:82-157 | write-back refinement: caching, immediate writes, rollback and the final flush leave exactly the tables, history and verdict of the cacheless reference executor |
| Verdicts.ApplyIsDeserved | internal/sync/services/category_operations.go:14-69 | for every operation and all tables, said on rows and columns alone: replayed if and only if its key is in the log; applied if and only if the envelope, the payload, the owner, the base version, the target, the texts and the free ids or names are right, and then exactly these columns and this history row change; refused with exactly the reason and versions of the condition that fails; failed only for a category id or name that is taken |
| Verdicts.OneAnswer | internal/sync/services/category_operations.go:14-69 | those conditions exclude each other, so an operation gets one answer |
| BatchVerdicts.BatchIsDeserved | internal/sync/services/operation_batch.go:82-157 | a batch is accepted if and only if each operation in turn is known or acceptable, rejected if and only if one is refused, with that one's reason, and failed if and only if a category clashes; what it leaves is exactly the rows of its operations, one version bump and a due job, or nothing but consumed sequences |
| BatchVerdicts.PathIsRun | internal/sync/services/operation_batch.go:94-115 | the operations of a batch determine every table in between |
| BatchVerdicts.QueriesCount | db/queries/sync.sql:48-68 | the two threshold queries give the number and the total bytes of the note's entries above its latest snapshot |
| BatchVerdicts.EnqueuesWhenDue | internal/sync/services/change_persistence.go:21-39 | a job is added exactly when an enabled threshold is reached by those entries |
| Ledger.ApplyEffect | internal/sync/services/category_operations.go:14-69 | every accepted operation appends one entry and moves its note as that entry says, leaving every other note alone |
| Ledger.OperationKeeps | internal/sync/services/note_operations.go:135-143 | an accepted operation keeps the history equal to the state, entries chained and idempotency keys unique |
| Ledger.BatchSettles | internal/sync/services/operation_batch.go:94-156 | a batch is all or nothing: a rejected one leaves the tables as they were but for consumed sequences, an accepted one bumps the version once, gives its entries that version, and changes no other note |
| SyncService.Server.FindRunEnd | internal/sync/services/push_service.go:39-44 | finds the end of a run of operations for one note |
| SyncService.Server.ApplyRun | internal/sync/services/push_service.go:46-61 | one batch of the request, with its answer and the running cursor |
| SyncService.Server.ApplyRuns | internal/sync/services/push_service.go:38-62 | the index loop applies exactly the batches of the sorted request |
| SyncService.Server.Sync | internal/sync/services/push_service.go:14-78 | the whole push transaction with its error paths equals its specification on the tables |
| SyncService.Server.CursorAfter | internal/sync/services/pull_service.go:81-89 | the largest sequence of the page, or the request cursor |
| SyncService.Server.PullPage | internal/sync/services/pull_service.go:14-53 | the pull transaction equals its specification on the tables |
| RequestVerdicts.PushErrors | internal/sync/services/push_service.go:14-67 | which error a push gets, on the request and the rows: invalid fields, then Forbidden if and only if the device is missing or another owner's, then DeviceRevoked if and only if it is the caller's and revoked, then a server error if and only if the categories clash; otherwise it completes |
| RequestVerdicts.PublishedIsLast | internal/sync/services/push_service.go:50-69 | a push publishes the sequence of the last entry it committed, and nothing if and only if it committed none |
| RequestVerdicts.PushReports | internal/sync/services/push_service.go:46-61 | accepted and rejected notes are listed in note order, and an accepted note at its stored version |
| RequestVerdicts.PullErrors | internal/sync/services/pull_service.go:14-33 | which error a pull gets, on the request and the device row, and that it is answered otherwise |
| RequestVerdicts.PullAnswers | internal/sync/services/pull_service.go:34-53 | a page is the start of the device's feed, as long as the limit allows, hasMore is true if and only if it is not all of it, and the device's cursor moves to the larger of the two while everything else stays |
| RequestVerdicts.PullServes | internal/sync/services/pull_service.go:34-50 | said on the entries: a page holds, in rising order, exactly the caller's entries by other devices between the two cursors; the new cursor is the last one's sequence; hasMore is true if and only if such an entry lies beyond it |
| RequestVerdicts.CheckAnswers | internal/sync/services/pull_service.go:57-77 | which error the availability check gives, on the request and the device row, and otherwise true if and only if another device's entry of the caller lies beyond the stored cursor |
| Runs.PushKeeps | internal/sync/services/push_service.go:14-78 | a push keeps every invariant, and a failed one leaves only consumed sequences |
| Runs.EveryRunIsGood | internal/sync/services/operation_batch.go:94-156 | in every reachable database the folded history is the state, and every job and snapshot is sound |
| Runs.NothingIsUndone | db/queries/sync.sql:8-26 | whatever runs later, history only grows, with larger sequences and higher versions, and no row loses its owner, note or tombstone |
| Runs.TombstonesArePermanent | internal/sync/services/block_operations.go:62-80 | a deleted note or block stays deleted through every later batch and flush |
| Runs.HistoryIsTheNote | internal/sync/services/note_operations.go:135-143 | a note is the fold of its entries; base is resulting minus one, versions follow sequence order and cover 1 to the current one without holes |
| Runs.CreateSnapshotKeeps | internal/jobs/snapshots.go:64-94 | as one atomic step, a snapshot is missing, behind or stored exactly when the owner has no such note, has it below the expected version, or at it or above; the stored row is a function of the note's version, so the upsert rewrites an equal row; an enqueued job never finds its note behind |
| Runs.RowIsGood | db/migrations/000007_add_snapshot_last_applied_cursor.up.sql:7-13 | the cursor a snapshot stores equals the backfill formula: the largest sequence among the entries up to its version |
| Runs.SnapshotPlusSuffix | internal/jobs/snapshots.go:64-94 | a stored snapshot followed by the note's entries after its cursor rebuilds the current note |
| RequestVerdicts.RegisterTakesEffect | db/queries/devices.sql:1-8 | a registration adds the caller's device at cursor 0 or leaves the device of that id alone |
| RequestVerdicts.RevokeTakesEffect | db/queries/devices.sql:32-39 | a revocation revokes the caller's own device, keeps its cursor, and touches nobody else's |
| RequestVerdicts.RevokedStaysOut | internal/sync/services/push_service.go:34-36 | in every run, once a device is revoked no later transaction changes its row or adds an entry written by it |
| Requests.OneVerdictPerNote | internal/sync/services/push_service.go:39-62 | a completed request has exactly one accepted or rejected entry for every note it names, and none for any other |
| Requests.BatchLeavesOthers | internal/sync/services/push_service.go:46-61 | a batch changes no other note, no other note's blocks and no other note's history |
| Requests.UnnamedUntouched | internal/sync/services/push_service.go:39-62 | whatever a request answers, a note none of its operations names keeps its document and its history |
| Requests.BatchRecords | internal/sync/services/category_operations.go:15-24 | an accepted batch leaves an entry under the idempotency key of each of its operations |
| Requests.RejectionReportsStoredNote | internal/sync/services/operation_batch.go:158-176 | whatever made a batch fail, its rejection carries the caller's note as it is stored and the version it is stored at, and neither for a note the caller does not own |
| Retry.RetryIsNoOp | internal/sync/services/category_operations.go:14-27 | if no operation of a note rejected the first time shares its id with an operation of a later note accepted then, a second run of the same request leaves the database as it was but for the sequence counter, accepts the same notes at the same versions, rejects the same notes and publishes nothing |
| Retry.OneNotePerIdSettles | internal/sync/services/category_operations.go:14-27 | that condition holds of every request whose operation ids each name one note |
| Retry.AllSharedIsAccepted | internal/sync/services/category_operations.go:15-24 | a rejected note whose every operation shares its id with an accepted one is accepted when the request is run again, whatever the request and the database |
| Retry.RetryIsNoOpIff | internal/sync/services/category_operations.go:14-27 | when no rejected note has operations with different ids, the second run is a no-op if and only if that condition holds of the first answers |
| Retry.RejectedAgain | internal/sync/services/operation_batch.go:94-115 | a rejected batch is rejected again when only other notes have moved since |
| Retry.SharedIdBreaksRetry | db/queries/sync.sql:1-6 | the condition is needed: with an id shared between two notes, a rejected note is accepted on the retry |
| PullFeed.PageIsWindow | internal/sync/services/pull_service.go:34-50 | a page is the window of the feed up to the cursor it returns, and hasMore says whether anything lies beyond |
| PullFeed.DrainedPull | internal/sync/services/pull_service.go:34-50 | with pushes between the pages, the pages and what is still to come are the whole feed, once and in order; hasMore is false exactly when the pages are all of it |
| PullFeed.DrainedPullInEveryRun | internal/sync/services/pull_service.go:34-50 | the same over every run of the server with any transactions between the pages |
| PullFeed.Drain | internal/sync/services/pull_service.go:38-49 | pulling until there is no more terminates with exactly the feed |
| PullFeed.AvailableIffPullNonEmpty | internal/sync/services/pull_service.go:57-76 | the availability check is true exactly when a pull at the stored cursor is not empty |
| PullFeed.DrainedIsUpToDate | internal/sync/services/pull_service.go:49-76 | after a page without more the availability check is false |
| Replica.PullKeepsNote | internal/sync/services/pull_service.go:34-50 | applying a page extends the prefix of a note's history the device has seen; after a page without more its copy is the note |
| Replica.AcceptedPushIsSafeIff | internal/sync/services/note_operations.go:60-73 | exactly when an accepted push keeps the device on a prefix: if and only if its copy did not end inside another device's batch |
| Replica.AcceptedPushKeepsNote | internal/sync/services/note_operations.go:60-73 | after an accepted push the device's own operations applied to its own copy are the note |
| Replica.AdoptKeepsNote | internal/sync/services/operation_batch.go:116-128 | adopting the document and cursor of a rejection leaves nothing of the note unseen |
| Replica.AcceptedPushLands | internal/sync/services/category_operations.go:15-24 | whether or not the reply arrives, the entries of an accepted batch directly follow what the device had seen of the note |
| Replica.OthersKeepLanded | internal/sync/services/category_operations.go:15-24 | and they stay there while others push |
| Resend.OwnBatchOnNote | internal/sync/services/category_operations.go:15-24 | a batch sent for the first time or again: without the reply it can be sent once more, with the reply the copy is what the device has seen |
| Resend.PushKeepsIds | internal/sync/services/operation_batch.go:94-115 | of each batch of a request, sent for the first time or again, the log holds every operation or none, and none unless the note was accepted |
| Resend.EarlyPullIsSafeIff | internal/sync/services/pull_service.go:34 | exactly when a page pulled between a lost reply and the resend is harmless for a note whose batch the server holds: the copy after the answer is what the device has seen if and only if the page held nothing of the note |
| Resend.EarlyPullOfUnsent | internal/sync/services/note_operations.go:60-73 | while the server does not hold the batch, a page with entries of the note makes it refuse the resend, so the device adopts the note |
| Convergence.EveryCopyIsAPrefix | internal/sync/services/pull_service.go:34-50 | in every run of the protocol, with lost requests, lost replies, resends and harmless early pulls, the device's copy of each note is the fold of a prefix of its history; a batch without its reply is unknown to the server or directly follows that prefix |
| Convergence.DevicesConverge | documentation.md:265-297 | whatever the server, the device and the others did and whichever requests and replies were lost, after a page without more the copy of every note the device has no unanswered operation of equals the server's note |
| Deliveries.SendDelivers | internal/sync/services/push_service.go:46-61 | a lost request changes nothing at the server; any other records every operation of the notes it accepts, and only an answer lets the device count them as accepted |
| Deliveries.NothingAcceptedIsLost | documentation.md:291-297 | in every run of the protocol the operations a device counts as accepted are in the history under its name, and while it waits for no reply these are all the history has of it |
| SplitPage.PushAfterSplitPageDiverges | internal/sync/services/pull_service.go:38-41 | a concrete run in which a push after a page that had more leaves the device with a different note and nothing left to pull |
| EarlyPull.PullBeforeResendDiverges | internal/sync/services/pull_service.go:34 | a concrete run in which a pull between a lost reply and the resend leaves the device with a different note and nothing left to pull |
| Locking.SequenceOrderIsVersionOrder | internal/store/notes.go:24-32 | however transactions interleave, a note's entries have the same order by sequence, by version and by commit, and fold to the stored note |
| Locking.HeldNoteIsStable | db/queries/notes.sql:8-14 | while a transaction holds a note's row lock no other changes the note or its history |
| Locking.LockedReadIsConsistent | internal/store/notes.go:34-51 | the locking read, split into its three statements, yields the fold of the history up to the cursor it returns |
| Locking.UnlockedReadIsRightIff | internal/store/notes.go:163-180 | exactly when the read without the lock is right: its row, blocks and cursor make the note's history up to that cursor if and only if the stored version at the end is still that of the row |
| Locking.NoWaitCycle | internal/sync/services/push_service.go:38-62 | waits on note locks never form a cycle |
| Locking.PullIsCompleteIff | db/migrations/000001_initial_schema.up.sql:78 | a pull to a cursor misses nothing for good if and only if no open transaction has inserted a smaller or equal sequence, for a note or for a category |
| LockSteps.LockIsGrantedIff | db/queries/notes.sql:8-14 | a transaction that may ask for a note gets it if and only if nobody holds it, with the document as committed then |
| LockSteps.InsertTakesEffect | internal/sync/services/note_operations.go:135-143 | inside a batch an entry is inserted if and only if the document has what it edits and the note is the writer's; it takes the next sequence and leads from the stored version to the next |
| LockSteps.RollbackLeavesNoTrace | internal/store/postgres.go:122-130 | a rolled-back batch loses its entries and its lock and keeps those of the batches before |
| LockSteps.AbortPublishesNothing | internal/store/postgres.go:97-105 | an aborted transaction publishes nothing and frees its notes |
| LockSteps.CommitPublishes | internal/store/postgres.go:106 | a commit publishes exactly the entries written and kept, moves each note by its own, and frees the notes |
| Serial.EveryRunIsSerial | internal/store/postgres.go:86-107 | serializability in commit order: the committed transactions run one at a time write the same entries at the same versions and leave the same documents as any interleaving of them |
| LockOrder.DeviceAndNoteWaitsEnd | internal/sync/services/push_service.go:26-62 | with device rows first and notes rising, whatever categories and blocks are also held, every cycle of waits goes through a category or a block id |
| LockOrder.RowsMove | db/queries/notes.sql:8-14 | a waiting transaction gets a row if and only if nobody else holds it, and ending or giving back frees the rows |
| LockOrder.ClimbingNeverDeadlocks | internal/sync/services/push_service.go:38-62 | transactions that ask for all their rows in one rising order never wait in a cycle |
| LockOrder.CrossingDeadlocks | internal/sync/services/category_operations.go:88-134 | any two categories, and any two new block ids, met in opposite order by two transactions in the source's order end in a cycle of waits |
| Anomalies.PullMissesLateCommit | internal/sync/services/pull_service.go:34 | a concrete run in which a pull passes a sequence that commits later |
| Anomalies.UnlockedReadTears | internal/store/notes.go:163-180 | a concrete run in which the read without a lock assembles a document the note never was |
| Outbox.CompletedJobsHaveSnapshots | internal/jobs/worker.go:98-125 | with any number of workers, lease expiries, lost replies and crashes, a completed job has a stored snapshot of the expected version or later, and stays completed |
| Outbox.EnqueuedJobsSucceed | internal/jobs/snapshots.go:64-74 | processing an enqueued job never finds its note missing or behind |
| Outbox.StepDelivers | db/queries/snapshots.sql:29-65 | no claim, completion, failure or crash undoes a completion |
| OutboxProgress.JobsCanBeDone | internal/jobs/worker.go:98-125 | whatever was lost or crashed before in any run, a minute and a lease later any free worker whose calls work completes an enqueued job, with its snapshot stored |
| OutboxProgress.ClaimTakesOpen | db/queries/snapshots.sql:29-47 | a claim takes a job if and only if it is not done, its time has come and no lease on it is running |
| OutboxProgress.LeaseExcludes | db/queries/snapshots.sql:29-47 | from a claim until its lease has run out, as long as no worker reports, nobody else gets the job |
| OutboxProgress.FailureDelays | internal/jobs/worker.go:146-156 | a reported failure frees the job, which opens again after exactly five seconds for each attempt, at most a minute |
| RealtimeClient.Client.Enqueue | internal/realtime/client.go:71-125 | for any writer activity meanwhile, the highest hint and every other message taken in stay delivered or queued; a hint is refused only when closed or when something else waits; the queue never holds two hints, and an accepted hint waits alone |
| RealtimeClient.Client.Drain | internal/realtime/client.go:94-107 | the drain loop ends, and nothing is lost between the queue, the writer and the producer |
| RealtimeClient.Client.Restore | internal/realtime/client.go:108-115 | putting drained messages back never drops one |
| RealtimeClient.Client.WriterTakes | internal/realtime/client.go:169-178 | the writer takes messages off the front at any moment |
| RealtimeClient.Client.Close | internal/realtime/client.go:55-65 | closing keeps the queue's invariant |
| RealtimeClient.NothingWaiting | internal/realtime/client.go:67-70 | once nothing is queued the client has heard the highest cursor and every other message as often as it was taken in |
| RealtimeHub.RegistryIsWellKept | internal/realtime/hub.go:37-60 | in every run each user and device maps to one client, no inner map is empty, and a replaced or removed client ends closed |
| RealtimeHub.OnlyItselfLeaves | internal/realtime/hub.go:90-103 | a late Unregister of a replaced client never removes its successor |
| RealtimeHub.ClosedStaysClosed | internal/realtime/hub.go:151-171 | after Close the registry stays empty, and once Close has returned every counted Serve has ended |
| RealtimeHub.CloseReachesEveryServe | internal/realtime/hub.go:62-85 | while Close waits, every counted Serve has its client closed or about to be |
| HubCalls.RegisterTakesPlace | internal/realtime/hub.go:37-60 | a registration on an open hub puts the client under its user and device, leaves every other entry in place and goes on to close the client it replaces; on a closed hub it changes nothing |
| HubCalls.RegisteredStays | internal/realtime/hub.go:37-60 | in every run, once registered on an open hub a client is found in every later state until its own removal, another registration of its user and device, or the closing of the hub |
| HubCalls.RemovalRemoves | internal/realtime/hub.go:90-103 | a removal takes away exactly the client's own entry, if it still is its own, and goes on to close it |
| HubCalls.ServeEnters | internal/realtime/hub.go:62-75 | a handler is let in, and counted, if and only if the hub is open |
| HubEndings.ServeTakesOff | internal/realtime/hub.go:76-103 | in every run, a handler that was let in ends only after its client was taken off the map and closed |
| HubEndings.CloseClosesAll | internal/realtime/hub.go:151-171 | in every run, when Close waits every client that was registered when it began is closed, and when it is over no handler is served |
| HubCalls.PublishReachesAll | internal/realtime/hub.go:105-135 | in every run, once a publish is over every client of the user registered on another device when it looked was sent the hint, and took it or is closed; nobody else was sent it |
| Uploads.Lifecycle | db/queries/uploads.sql:33-99 | in every run a cancelled row only becomes deleted, a deleted row is final and was cancelled before, and no other row returns to an earlier status |
| Uploads.VerifiedAsDeclared | internal/uploads/service.go:137-194 | in every run, whatever is uploaded or removed when, what a row records as verified has the declared size and type, and a completed row records it |
| Uploads.CompletedHasItsObject | internal/uploads/service.go:137-194 | when no object arrives while one is about to be removed, a completed row has its verified object in storage and nobody is about to remove it |
| Uploads.CompletedKeepsObjectIff | internal/jobs/cleanup.go:39-61 | a completed row keeps its object as long as it is completed, in every later run, if and only if no cleanup pass is about to remove an object and no removal that timed out may still land |
| Uploads.UploadAgainLosesObject | internal/storage/supabase.go:96-98 | a concrete run without any overwrite in which the signed upload is used again after one cleanup pass removed a wrong object, and another pass removes the right one of a completed row |
| UploadAnswers.CompleteAlone | internal/uploads/service.go:137-194 | whatever the state of a row that declares a media type, a Complete whose calls work and that meets nobody else completes an unexpired pending row if and only if the object is as declared, with that object verified, fails it for any other object, and otherwise leaves the row and gives the answer for its case |
| UploadAnswers.DeleteAlone | internal/uploads/service.go:283-318 | whatever the state, a Delete by itself removes the object and ends with the row deleted and the caller told so |
| UploadAnswers.CleanerAlone | internal/jobs/cleanup.go:33-63 | whatever the state of a row that declares a media type, a cleanup pass by itself completes an overdue row if and only if its object is as declared, expires it with any other object removed, and leaves every other row alone |
| UploadAnswers.AuthorizationDecides | internal/uploads/service.go:113-130 | a refused upload authorization fails the pending row, a granted one leaves it alone |
| UploadAnswers.StatusHasItsReason | internal/uploads/service.go:137-194 | in every run, a row is completed only by an inspection that found the declared object, failed only by one that found another or by a refused authorization, expired only by a pass that did not find it, cancelled or deleted only by a delete |
| UploadAnswers.AnswersAreTrue | internal/uploads/service.go:137-194 | in every run, an answer was true at the call that gave it: completed and deleted are the status of the row then, a conflict met a settled row, not ready met an expired authorization or no object |

## Left out

- JSON decoding, pgx conversion and response field copies: operations start decoded, with one flag for data that does not decode.
- 64-bit overflow of versions, sequences and cursors, and wall-clock timestamps: deletion is a flag, leases and expiries are integers.
- Block listing order: positions are opaque text compared for equality only.
- UUIDs are numbers, so that byte order is numeric order; text is a sequence of runes; note and block properties are opaque strings.
- Category history in the fold and convergence results: categories carry no version check; they appear as a batch that bumps no version.
- Request authentication: the owner is a parameter, as the services receive it.
- Full-note downloads and device registration beyond the rows they write.
- Snapshot encoding and checksums, history compaction and expired cursors.
- Storage over HTTP, signed URLs and MIME parsing: storage is one object per path, a content type is either a normalised media type or opaque text.
- Upload validation, pending limits and download links: request checks on one row without interleaving.
- Sockets, ping and pong, deadlines and the LISTEN and NOTIFY loop: only the queue and the hub map remain.
- Identity checks in Register and event validation in PublishSyncAvailable: clients and events are valid ones.
- Order of messages that are not hints: a hint that finds one waiting may put it back behind one the writer took.
- Uploads, the outbox, the hub and row locking are step machines on values rather than classes, because their properties are about interleaved steps; update in place inside one step is not modelled.
- Locks on rows other than devices, categories, notes and new block ids, and what PostgreSQL does to break a cycle of waits.
- Timed-out row updates take effect at once or never; only a timed-out removal of an object may land later.
- Serial.EveryRunIsSerial: the serial run is one of the interleaved machine, whose entries carry the checks of the history and not those of the requests.
- Locking of categories in the interleaved runs of Locking and Serial: their waits are the subject of LockOrder.
- Liveness of workers, of the writer and of Close beyond what is stated: no fairness is modelled.
- Objects of failed or expired uploads may stay in storage; nothing is claimed about orphans.
- Convergence.DevicesConverge: a page that gets lost counts as a pull by others, since it changes only the device row. A device resends all it has no reply to as one request before it sends anything else or pulls.
- Retry.RetryIsNoOp: one-way when a rejected note has several operations: with only some of their ids accepted elsewhere, the retry skips those and may or may not be rejected by another one, which the answers do not name. Retry.RetryIsNoOpIff and Retry.AllSharedIsAccepted cover the other cases.
- Uploads.CompletedHasItsObject: one-way, as a guard on the whole run; the exact condition for a row that is already completed is Uploads.CompletedKeepsObjectIff.
- UploadAnswers.CompleteAlone: one request whose calls meet nobody else; in every interleaving, StatusHasItsReason and AnswersAreTrue say when a status or an answer may be given.
- Runs.CreateSnapshotKeeps: one atomic transaction; the interleaved read is covered by Locking.UnlockedReadIsRightIff, which says exactly when it yields the note.
- Locking.SequenceOrderIsVersionOrder: a batch's working copy is shown with its bumped version from the first entry on, since nobody sees it before the commit.
