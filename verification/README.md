# InfluxDesk: proofs of the crash-safe core

InfluxDesk is a desktop client for InfluxDB. Its centre is a set of write protocols that must stay truthful across locks,
cancellations and crashes, plus a few exact codecs and schedulers. This project models that centre and proves what it is for.
`dafny verify dfyconfig.toml` checks everything.

## The components

**Import runs** (`StagedBatch`, `Import`, `ImportInvariants`, `ImportRuns`, `ImportOutcomes`, `ImportTheorems`, `ImportSafety`,
`ImportRepository`).
One import job has rows for its checkpoint chain, run segments, attempts, incidents and command ledger, and a permit in process
memory. `Import` holds one function per repository operation: one immediate transaction together with the permit change made
under the same job lock; a refused transaction leaves the rows alone. `ImportRuns` lets any sequence of operations, crashes and
recoveries happen. The invariant links rows and permit; the theorems say that checkpoints form one numbered hash chain, that the
acknowledged attempts tile the file up to the logical offset, that their payloads are that prefix of the staging file byte for
byte, and that recovery brings everything to rest, once. `ImportRepository.Repository` is the object with its job map and permit
map updated in place, its two-lock methods and its sweeping loops. `StagedBatch` is the single pass that cuts a batch out of the
staging file, proved equal to a specification over the list of records; its errors are proved right in both directions.

**Grants** (`Grants`, `GrantSafety`, `GrantScopes`, `GrantRegistry`, `GrantedRuns`). A previewed binding becomes a token that may
start one run segment. The machine interleaves previews, calls between their ledger lookup and their end, lost answers, purges,
resets and crashes. `GrantScopes` says over runs when a repeated preview gets its token back.

**Protection gate** (`Protection`, `ProtectionSafety`, `ProtectionLeases`, `ProtectionManager`). Threads run Unlock, Lock, CloseGeneration,
BeginMutationDispatch, WithAuthorizedGate, WithGrantBinding and WithGenerationGate step by step: gate acquisition with its
waiter count, transaction, memory update, release. A log of commits and crossings carries the theorems.

**Mutation dispatch** (`Operation`, `OperationSafety`, `OperationStore`). Execute, the dispatch goroutine, Cancel, finish and
crash plus recovery as threads over the rows, the token mutex and the gate.

**Event synchronisation** (`Decimal`, `TaskEvents`, `TaskSync`, `TaskSynchronizer`). Decimal strings of any length on both sides
of the bridge, the numbered event log of the backend, and the frontend's synchronizer as an object whose every `await` lets
pushes, commits, stops and failures happen. Its invariant: at rest, every import and export event up to `lastSeq` has had its
resource read, or everything loaded, after it was committed, except exactly the events in the ghost set `owed`: those that
waited when a full load failed and have not been read since.

**Query results** (`JsonText`, `JsonFramer`, `ChunkOrder`, `RowCodec`, `ResultStore`, `QuerySession`, `ResultPaging`,
`QueryRecord`). JSON as a grammar with every choice of whitespace and escape, the framer's loop over bytes, the order check over
response chunks, the binary row codec, the memory/spill store against a plain list of accepted rows, the life of a session from
its start to the detaching of its result, and the page walk of the CSV writer over the rows that the store holds, while commands
and expiry go on between its requests.

**Export** (`LineProtocol`, `ExportLane`, `ExportLaneSafety`, `ExportScheduler`, `ReadLanes`, `ArtifactReservation`,
`ReservationSafety`, `ReservationSettlement`, `ReservationStore`). The line-protocol printer with a decoder that undoes it, the
per-generation export scheduler, the read lanes with slot hand-off, and the reservation ledger of a target volume with the writer
that reserves before it writes.

## Conventions

SHA-256 is a datatype wrapped around its input, so it is injective; AES-GCM is a pair of functions that are inverse under the
nonce and associated data that were used (`Aead.Inverse`). Clock readings, fresh UUIDs, random tokens, what a peer answers, what
the disk reports and whether an input or output call fails are parameters. Tables are maps and a `WithImmediate` body is one step
that commits or does nothing. Offsets, sizes and revisions are unbounded naturals, with the int64 and uint32 limits written out
where the code checks them.

## What the proofs turned up

- The backend's `canonicalDecimal` accepts `-0`, `-00` and so on, and rewrites them to `0`; apart from these it accepts exactly the
  frontend's canonical texts (`Decimal.BackendAcceptsExactly`).
- Settling an import attempt can never collide with the checkpoint key or the unique parent of a transition
  (`ImportSafety.SettlementsNeverCollide`).
- `lastSeq` moves backwards in one place only: `reconcileHead`, when the head it reads is below `lastSeq` and so is the head that
  the snapshot then reads, with nothing newer pushed meanwhile (`TaskSynchronizer.Synchronizer.ReconcileHead` for the condition,
  `TaskSynchronizer.MovesBack` for a run). Coverage is stated up to wherever `lastSeq` stands, so nothing is lost by it.
- "No event up to `lastSeq` is lost" fails when a full load rejects while events wait: the code goes on with `lastSeq` advanced.
  `TaskSynchronizer.LosesAnEvent` is such a run. A missed event is exactly an owed one (`Serve`); a failed load adds the waiting
  events that had not been read (`TaskSync.FailedLoadOwes`), reading their resource or a full load settles them, and a single batch
  without gaps loses its events exactly when neither the reads nor the full load behind them answer (`DrainBatch`).
- `Issue` promises the same token for the same preview while the grant is live. A live grant loses its scope when an older, consumed
  grant of the same job and command is purged, by the repeated preview itself (`GrantScopes.ForgottenByItself`) or by any earlier
  call (`GrantScopes.ForgottenByAnother`), and when a namesake is committed (`GrantScopes.ForgottenByCommit`); the next preview then
  draws a second live token. From its issue on and over every run, the promise holds exactly when none of these happened
  (`GrantScopes.IssueRepeatsExactly`). No second run can start from it: the command ledger is asked first.
- The protection state can read UNLOCKED with no lease behind it: two threads send one lock command, an unlock follows the first,
  and the second then finds the command in the ledger and clears the lease (`ProtectionLeases.LockedTwiceIsBare`). That is the only
  way (`ProtectionLeases.UnlockedWithoutLease`), and nothing crosses the gate in that state.
- A cancelled export job does not stay CANCELED when it was claimed and paused first; its terminal flag stays
  (`ExportLaneSafety.CanceledIsLeftExactly`).
- In the CSV walk the stall error is unreachable: rows become visible in the step that ends the session, so every page of a session
  that can exist is the last one or moves on (`ResultPaging.PageProgresses`, `QuerySession.ResultsAreFinal`).
- A series that a response declares without rows is listed, and its first page is answered with RESULT_STORAGE_FAILED instead of an
  empty last page; a first page is given exactly for a series with a row (`ResultPaging.FirstPageExactly`, `ResultPaging.EmptySeriesFails`).
- The two accounting checks with which a reservation ledger is read never refuse a ledger that the operations produced, and the
  "actual exceeds reserved" refusal is unreachable for a writer that reserved before writing
  (`ReservationSafety.LedgersAreReadable`, `ReservationSettlement.CompletedWriterSettles`).

## Model

| member | source | states |
|---|---|---|
| StagedBatch.SplitParses | internal/importworker/worker.go:479-488 | the records of the specification lie one after another in the file, each up to its newline, for every file |
| StagedBatch.ReadBytes | internal/importworker/worker.go:483-486 | one buffered read returns the next record with its newline, or the rest of the file at its end |
| StagedBatch.Select | internal/importworker/worker.go:500-531 | a record is skipped, appended or closes the batch so that the batch stays the run from the start offset that the limits allow |
| StagedBatch.Accept | internal/importworker/worker.go:484-531 | each refusal of a record is right: no batch is acceptable for the file, and an offset fault is named exactly when there is one |
| StagedBatch.Scan | internal/importworker/worker.go:474-538 | one pass hashes the whole file, checks every record and holds the selection over all of them |
| StagedBatch.ReadVerifiedBatch | internal/importworker/worker.go:426-564 | the one-pass reader returns a batch the record specification accepts, and an error only when it accepts none |
| StagedBatch.LongestRunUnique | internal/importworker/worker.go:500-530 | the first record plus the longest run within point and byte limits is one definite run |
| StagedBatch.AcceptedUnique | internal/importworker/worker.go:539-563 | file, checkpoint and limits determine the batch |
| StagedBatch.BatchCoversRange | internal/importworker/worker.go:500-530 | payload length is end - start - 1, and payload plus newline are the bytes of the range |
| Decimal.CompareIsIntegerOrder | frontend/src/taskEventSync.ts:30-37 | compareDecimal is integer comparison at every length |
| Decimal.IncrementDecimal | frontend/src/taskEventSync.ts:39-50 | the in-place carry gives the canonical text of the next integer, and an error exactly for non-canonical text |
| Decimal.SqlAfterIsIntegerOrder | internal/tasks/repository.go:254-284 | the (length, text) comparison of the SQL is integer order on canonical texts |
| Decimal.BackendAcceptsExactly | internal/tasks/types.go:72-81 | the backend accepts the canonical texts unchanged, rewrites negative zero, and refuses everything else |
| Decimal.NextTextIsNextInteger | internal/tasks/types.go:83-92 | text equality with the incremented text detects exactly the next integer |
| ImportInvariants.AlwaysAdvances | internal/transfer/repository.go:590-645 | no unique index stops the checkpoint that follows the current one |
| ImportInvariants.StartRunLive | internal/transfer/repository.go:153-234 | starting a run keeps rows and permit in agreement, also when the permit cannot be activated |
| ImportInvariants.BeginAttemptLive | internal/transfer/repository.go:236-336 | a begun attempt is the one the live segment names, at the current offset and checkpoint |
| ImportInvariants.SettleAckLive | internal/transfer/repository.go:496-660 | after an ACK the segment goes on at the new checkpoint or is closed, and the permit followed or is gone |
| ImportInvariants.SettleAckAdvances | internal/transfer/repository.go:514-645 | an ACK adds one checkpoint that ends at the attempt's end and ends the attempt; a refusal changes nothing |
| ImportInvariants.TooLargeAdvances | internal/transfer/too_large.go:27-224 | a 413 adds one checkpoint at the same offset with smaller limits |
| ImportInvariants.SettleTooLargeLive | internal/transfer/too_large.go:27-277 | batch reduction and the single-point failure keep rows and permit in agreement |
| ImportInvariants.MarkNotSentLive | internal/transfer/worker_settlement.go:25-124 | closing an attempt that was not sent keeps rows and permit in agreement |
| ImportInvariants.SettleRejectedLive | internal/transfer/worker_settlement.go:128-227 | settling a rejected write keeps rows and permit in agreement |
| ImportInvariants.RecordIncidentIncidents | internal/transfer/repository.go:662-761 | an incident opens only with its decision state, and only one is open |
| ImportInvariants.AbortIncidents | internal/transfer/repository.go:763-867 | aborting keeps decisions and open incidents paired |
| ImportInvariants.InvalidatePermitLive | internal/transfer/repository.go:387-482 | invalidation leaves a stopping segment only while its attempt is out |
| ImportInvariants.CancelImportLive | internal/transfer/import_control.go:34-195 | cancel keeps rows and permit in agreement from every state |
| ImportInvariants.CancelImportIncidents | internal/transfer/import_control.go:34-195 | cancel keeps decisions and open incidents paired |
| ImportInvariants.FinishImportKeeps | internal/transfer/worker_settlement.go:231-332 | finishing moves no checkpoint, and a job it makes SUCCEEDED has its current checkpoint at the size of the file |
| ImportInvariants.BeginCleanupLive | internal/transfer/import_control.go:200-314 | the first cleanup phase keeps rows and permit in agreement |
| ImportInvariants.CompleteCleanupLive | internal/transfer/import_control.go:365-449 | the second cleanup phase keeps rows and permit in agreement |
| ImportInvariants.RecoverLive | internal/transfer/recovery.go:16-116 | recovery keeps the row invariant from every state |
| ImportOutcomes.NotSentOutcome | internal/transfer/worker_settlement.go:25-124 | an attempt that was not sent is closed; a stopping run is over, cancelled or paused as asked, an active one goes on with its permit and nothing out |
| ImportOutcomes.RejectedOutcome | internal/transfer/worker_settlement.go:128-227 | a rejected write ends its run: no live segment, nothing out, no permit; cancelled, paused or failed |
| ImportOutcomes.AbortOutcome | internal/transfer/repository.go:763-867 | a carried-out abort named the one open incident, closes it, and leaves the job ABORTED; the permit goes in any case |
| ImportOutcomes.CleanupRestores | internal/transfer/import_control.go:200-449 | cleanup is entered only from rest, and both phases together restore the outcome the job had |
| ImportOutcomes.SucceedsOnlyByFinish | internal/transfer/worker_settlement.go:231-332 | of all operations only finishing makes a job SUCCEEDED, at the size of the file, with nothing out and no open incident |
| ImportRuns.StepCommits | internal/transfer/repository.go:514-645 | an event that commits a checkpoint is an ACK or a batch reduction and extends the chain by that one checkpoint |
| ImportRuns.StepKeeps | internal/transfer/repository.go:153-482 | every other event leaves checkpoints, transitions and acknowledged attempts alone |
| ImportRuns.StepInv | internal/transfer/repository.go:153-867 | every operation, crash and recovery keeps the whole invariant |
| ImportRuns.RunInv | internal/transfer/repository.go:153-867 | the invariant holds after every run |
| ImportTheorems.CheckpointsAreOneChain | internal/transfer/repository.go:590-645 | on every run the transitions are one hash-linked path, numbered without a gap, from a parentless checkpoint to the current one |
| ImportTheorems.AckedAttemptsTile | internal/transfer/repository.go:514-645 | the ACKED attempts in commit order, each once, tile [0, logical offset) |
| ImportTheorems.AckedPayloadsArePrefix | internal/importworker/worker.go:426-563 | the acknowledged payloads, each with its newline, concatenate to exactly the settled prefix of the staging file |
| ImportTheorems.SucceededDeliveredAll | internal/transfer/worker_settlement.go:231-332 | a job is SUCCEEDED only when the whole staging file was acknowledged, in order, each byte once |
| ImportSafety.EveryRunIsExclusive | internal/transfer/repository.go:153-336 | at most one SENDING attempt, exactly the live segment's; RUNNING exactly with one live segment; a permit implies RUNNING, ACTIVE, that segment and the current digest |
| ImportSafety.SettlementsNeverCollide | internal/transfer/repository.go:952-995 | neither the checkpoint key nor the unique transition parent is ever violated by a settlement |
| ImportSafety.NothingBeginsWithoutPermit | internal/transfer/repository.go:236-336 | without a permit no attempt begins until a run is started |
| ImportSafety.NothingBeginsAfterStop | internal/transfer/repository.go:387-482 | once invalidation, cancel, abort or a crash has returned, no attempt begins until a run is started |
| ImportSafety.RecoveryRests | internal/transfer/recovery.go:16-116 | after a crash and recovery: no PREFLIGHTING, STAGING or RUNNING job, no SENDING attempt, no live segment, no permit, same chain |
| ImportSafety.RecoveryReports | internal/transfer/recovery.go:53-88 | the interrupted attempt becomes exactly one OPEN UNKNOWN incident with its range and digest, and nothing else is touched |
| ImportSafety.RecoveryIsIdempotent | internal/transfer/recovery.go:16-96 | a second recovery changes nothing |
| ImportSafety.EveryCrashRecovers | internal/transfer/recovery.go:16-116 | rest and idempotence hold from every reachable state |
| ImportSafety.DoneIsFinal | internal/transfer/import_control.go:474-500 | a finished job's chain, attempts, segments, incidents and outcome never change again, cleanup included |
| ImportRepository.Repository.Activate | internal/transfer/permit.go:14-25 | a permit is stored exactly when it is well formed and none is live |
| ImportRepository.Repository.CompareAndSwap | internal/transfer/permit.go:44-54 | the permit moves to the child digest exactly when segment and parent match |
| ImportRepository.Repository.Revoke | internal/transfer/permit.go:56-60 | the permit of one job goes, the others stay |
| ImportRepository.Repository.PausePermitDesync | internal/transfer/repository.go:905-942 | a run whose permit cannot follow is paused unless an attempt is out |
| ImportRepository.Repository.StartRun | internal/transfer/repository.go:153-234 | the method does the start step of this job, touches no other, and keeps every job's invariant |
| ImportRepository.Repository.BeginAttempt | internal/transfer/repository.go:236-336 | the same for beginning an attempt with the permit read before the job lock |
| ImportRepository.Repository.SettleAck | internal/transfer/repository.go:496-660 | the same for an ACK with its compare-and-swap or desync pause |
| ImportRepository.Repository.RecordIncident | internal/transfer/repository.go:662-761 | the same for a partial or unknown outcome |
| ImportRepository.Repository.Abort | internal/transfer/repository.go:763-867 | the same for an abort decision |
| ImportRepository.Repository.InvalidatePermit | internal/transfer/repository.go:387-482 | the same for one permit, if it is still the one that was read |
| ImportRepository.Repository.InvalidatePermits | internal/transfer/repository.go:341-367 | the sweep stops exactly the jobs whose permit matches the binding, in any order |
| ImportRepository.Repository.CancelImport | internal/transfer/import_control.go:34-195 | cancel with the lookup before the job lock: a known command changes nothing, otherwise the transaction decides |
| ImportRepository.Repository.CancelImportAfterWait | internal/transfer/import_control.go:47-195 | the rest of a cancel that waited for the job lock: a command committed meanwhile is a replay that still takes the permit |
| ImportRepository.KnownCancel | internal/transfer/import_control.go:43-62 | the answer of the first lookup is the transaction's answer, and without a hit the first lookup makes no difference |
| ImportRepository.Repository.RecoverJob | internal/transfer/recovery.go:41-93 | one job's rows are recovered by their state |
| ImportRepository.Repository.RecoverImports | internal/transfer/recovery.go:16-96 | the startup loop recovers every job, counts them and leaves no permit |
| GrantSafety.FramesAreInjective | internal/transfer/grant.go:248-264 | length-prefixed framing loses nothing: equal framings come from equal value lists |
| GrantSafety.DigestFixesBinding | internal/transfer/grant.go:248-264 | two bindings with one digest are one binding, whatever their fields hold |
| GrantSafety.PurgeKeeps | internal/transfer/grant.go:213-220 | purging keeps every held grant and leaves no scope that points nowhere |
| GrantSafety.IssueAnswers | internal/transfer/grant.go:94-132 | an issued token is live, unheld, unconsumed and for exactly this binding |
| GrantSafety.IssueIsIdempotent | internal/transfer/grant.go:93-132 | the same preview gets the same token back without a draw |
| GrantSafety.StepKeeps | internal/transfer/authorizer.go:146-220 | every step of every call keeps registry, calls, ledger and segments consistent |
| GrantSafety.OneSegmentPerToken | internal/transfer/authorizer.go:146-220 | over every interleaving no token and no command starts two run segments |
| GrantSafety.SegmentsWerePreviewed | internal/transfer/authorizer.go:454-471 | a run starts with exactly the previewed binding, before the grant expires, at most 120 seconds after the preview |
| GrantSafety.OneHolderPerToken | internal/transfer/grant.go:134-154 | no two calls hold one token |
| GrantSafety.SpentForever | internal/transfer/grant.go:179-220 | a consumed, purged, reset or crashed grant is never reserved again |
| GrantScopes.IssueRepeats | internal/transfer/grant.go:93-113 | an untouched live grant's preview gets its token back exactly when its scope points to it and this call purges no namesake |
| GrantScopes.StepScope | internal/transfer/grant.go:179-220 | a step takes the scope of a grant that lives on exactly when it purges or commits a namesake |
| GrantScopes.RunScope | internal/transfer/grant.go:93-220 | the same over runs: the scope leads to the grant exactly when no step purged or committed a namesake |
| GrantScopes.IssueRepeatsExactly | internal/transfer/grant.go:93-132 | from its issue on, over every run, a preview of an untouched grant gets its token back exactly when no namesake was purged or committed since |
| GrantScopes.RenewedIsReached | internal/transfer/grant.go:93-193 | preview, start, commit and a second preview lead to a consumed grant beside its live successor |
| GrantScopes.ForgottenByItself | internal/transfer/grant.go:213-220 | the repeated preview purges the consumed namesake, and two live tokens stand for one binding |
| GrantScopes.ForgottenByAnother | internal/transfer/grant.go:213-220 | an unrelated preview purges it earlier; the repeated preview purges nothing and still draws a second token |
| GrantScopes.ForgottenByCommit | internal/transfer/grant.go:179-193 | committing the older of two live tokens drops the scope of the newer one |
| GrantRegistry.Store.PurgeLocked | internal/transfer/grant.go:213-220 | the deleting walk removes exactly the expired unheld records and their scopes |
| GrantRegistry.Store.Issue | internal/transfer/grant.go:94-132 | the method is the Issue step |
| GrantRegistry.Store.DrawToken | internal/transfer/grant.go:114-128 | at most four draws, the first unused one wins |
| GrantRegistry.Store.Reserve | internal/transfer/grant.go:134-154 | the method is the Reserve step |
| GrantRegistry.Store.ValidateLive | internal/transfer/grant.go:160-177 | live means held by this reservation, not consumed and not expired |
| GrantRegistry.Store.Commit | internal/transfer/grant.go:179-193 | only the holder consumes |
| GrantRegistry.Store.Rollback | internal/transfer/grant.go:195-204 | only the holder gives back |
| GrantedRuns.StartRunIsOneTransaction | internal/transfer/repository.go:162-225 | a known command changes nothing; otherwise one segment, before expiry, and its ledger row in the same transaction |
| GrantedRuns.RetriedStartIsAnswered | internal/transfer/repository.go:106-116 | a retried command is answered from the ledger and changes nothing |
| ProtectionSafety.UnlockStep | internal/protection/manager.go:442-602 | every step of Unlock keeps the invariant, with its second waiter check and the expiry before it |
| ProtectionSafety.LockStep | internal/protection/manager.go:604-711 | every step of Lock keeps the invariant |
| ProtectionSafety.CloseStep | internal/protection/manager.go:828-871 | every step of CloseGeneration keeps the invariant |
| ProtectionSafety.AuthorizeStep | internal/protection/manager.go:717-785 | every step of BeginMutationDispatch and WithAuthorizedGate keeps the invariant |
| ProtectionSafety.GrantStep | internal/protection/manager.go:290-349 | every step of WithGrantBinding keeps the invariant |
| ProtectionSafety.LookStep | internal/protection/manager.go:1048-1072 | a replayed command that reads the snapshot keeps the invariant |
| ProtectionSafety.ControlStep | internal/protection/manager.go:789-806 | every step of WithGenerationGate keeps the invariant |
| ProtectionSafety.ReconcileStep | internal/protection/manager.go:380-429 | an expired lease becomes a durable lock, in row and log, before anyone goes on; otherwise nothing changes |
| ProtectionSafety.AcquireStep | internal/protection/manager.go:52-108 | gate acquisition keeps the holder the one thread inside |
| ProtectionSafety.AfterInv | internal/protection/manager.go:442-871 | the invariant holds after every interleaving, restarts included |
| ProtectionSafety.CrossingsAreAuthorized | internal/protection/manager.go:717-826 | whatever crosses carries revision and lease of the latest committed unlock, with no lock, expiry, close or restart since |
| ProtectionSafety.RevisionsGrow | internal/protection/manager.go:442-711 | logged revisions strictly grow up to the durable one |
| ProtectionSafety.CommandsApplyOnce | internal/protection/manager.go:1048-1120 | a command id changes the revision at most once, by however many threads it is sent |
| ProtectionSafety.PendingLockBlocks | internal/protection/manager.go:61-108 | while a lock or close is pending no thread passes validation |
| ProtectionSafety.LeaseMeansUnlocked | internal/protection/manager.go:808-826 | with the gate free, a lease in memory means durably unlocked at that revision, open, and granted by the latest unlock |
| ProtectionLeases.UnlockedWithoutLease | internal/protection/manager.go:604-711 | on every run the state reads UNLOCKED without a lease exactly when a lock was replayed late and memory took over no durable state since |
| ProtectionLeases.StepBare | internal/protection/manager.go:700-709 | the same for one step |
| ProtectionLeases.LockedTwiceIsBare | internal/protection/manager.go:604-711 | a run that ends so, with nobody inside and no lock pending |
| ProtectionManager.ConnectionState.ReconcileExpiredLease | internal/protection/manager.go:380-429 | the method commits the expiry exactly when the lease is over |
| ProtectionManager.ConnectionState.Reject | internal/protection/manager.go:924-968 | a rejection is recorded once and replayed afterwards |
| ProtectionManager.ConnectionState.Unlock | internal/protection/manager.go:482-602 | inside the gate: expiry first, then the transaction, then the lease in memory |
| ProtectionManager.ConnectionState.Lock | internal/protection/manager.go:625-711 | durable lock, then memory, and the waiter count is given back |
| ProtectionManager.ConnectionState.CloseGeneration | internal/protection/manager.go:828-871 | closed durably and in memory |
| ProtectionManager.ConnectionState.BeginMutationDispatch | internal/protection/manager.go:717-753 | the round trip begins exactly when no lock waits, the lease is live, the binding matches and the record was persisted |
| ProtectionManager.ConnectionState.Recover | internal/protection/manager.go:198-255 | a persisted unlock is locked again at startup |
| OperationSafety.NextKeeps | internal/operation/service.go:171-410 | every step of every thread keeps the invariant over rows, flags, gate and token mutex |
| OperationSafety.RecordsAreTruthful | internal/operation/service.go:289-410 | a NOT_SENT or QUEUED operation never entered a round trip, a SUCCEEDED or REJECTED one did, and entering implies a durable record |
| OperationSafety.SentAtMostOnce | internal/operation/service.go:289-335 | no operation enters two round trips |
| OperationSafety.SettledForever | internal/operation/service.go:374-410 | terminal states and ledger entries never change |
| OperationSafety.NotSentForever | internal/operation/cancel.go:102-203 | an operation recorded as not sent is never sent later |
| OperationSafety.RecoverySettles | internal/tasks/repository.go:326-334 | after a crash and recovery nothing is open, DISPATCHING became unknown, nothing sent is called unsent, and a second recovery changes nothing |
| OperationSafety.CancelOwn | internal/operation/cancel.go:47-66 | a canceler that read the started flag inside the gate writes the truth |
| OperationStore.Store.Create | internal/operation/service.go:199-236 | a request scope creates one operation; a repeat gets the same one or a conflict |
| OperationStore.Store.Transition | internal/operation/service.go:337-372 | QUEUED to DISPATCHING and nothing else |
| OperationStore.Store.Finish | internal/operation/service.go:374-410 | the first terminal state stays |
| OperationStore.Store.ApplyCancel | internal/operation/cancel.go:102-203 | the cancel transaction with its replay, revision and state checks |
| OperationStore.Store.RecoverCore | internal/tasks/repository.go:289-367 | the loop settles every open operation and counts them |
| TaskEvents.AppendKeepsNumbers | internal/tasks/repository.go:210-241 | every event gets the next number; appending never fails and leaves no gap |
| TaskEvents.HistoryIsNumbered | internal/tasks/repository.go:210-241 | after any changes to a fresh database, each change is in the log under its position's number |
| TaskEvents.ChangesAreNext | internal/tasks/repository.go:254-284 | whatever the ordered, limited query returns is the next run of events without a gap |
| TaskSync.KeySplits | frontend/src/taskEventSync.ts:270-292 | splitting a resource key at its first colon gives back kind and id |
| TaskSync.FullSnapshotCovers | frontend/src/taskEventSync.ts:254-268 | a full load covers every event committed before it was issued, whatever was owed |
| TaskSync.FailedLoadOwes | frontend/src/taskEventSync.ts:254-268 | after a failed full load the missed events are the owed ones and the waiting ones that were not read |
| TaskSync.ResourceReadsCover | frontend/src/taskEventSync.ts:270-287 | reading every waiting resource covers what waited and what was owed of these resources |
| TaskSync.NextEventWaits | frontend/src/taskEventSync.ts:188-196 | the event after lastSeq is the backend's next, so its resource joins the waiting ones |
| TaskSync.SortSorts | frontend/src/taskEventSync.ts:178-184 | a spliced batch is sorted by number and is the same multiset of events |
| TaskSynchronizer.Synchronizer.HighestPending | frontend/src/taskEventSync.ts:255-263 | the highest of head and pending events |
| TaskSynchronizer.Synchronizer.HighestKnown | frontend/src/taskEventSync.ts:254-263 | the snapshot's head is not behind the head that is read, the pending events or the known head |
| TaskSynchronizer.Synchronizer.LoadAll | frontend/src/taskEventSync.ts:264-267 | a load that answers has seen everything committed when it was issued, and it fails exactly when it is not answered |
| TaskSynchronizer.Synchronizer.RecoverWithFullSnapshot | frontend/src/taskEventSync.ts:254-268 | after a snapshot nothing is missed or owed and lastSeq is not behind the known head; when its load fails, exactly what waited is owed and lastSeq stays |
| TaskSynchronizer.Synchronizer.RefreshResources | frontend/src/taskEventSync.ts:270-287 | every waiting resource is read, or everything is loaded, or both fail and what waited is owed |
| TaskSynchronizer.Synchronizer.Absorb | frontend/src/taskEventSync.ts:186-198 | the pass stops at the first gap and asks for a catch-up exactly when an event lies beyond it |
| TaskSynchronizer.Synchronizer.Follow | frontend/src/taskEventSync.ts:226-252 | an answer is followed exactly when each event continues the numbering |
| TaskSynchronizer.Synchronizer.CatchUp | frontend/src/taskEventSync.ts:226-252 | reaches the target or recovers by snapshot |
| TaskSynchronizer.Synchronizer.DrainBatch | frontend/src/taskEventSync.ts:175-205 | afterwards lastSeq has reached every event of the batch; a batch without gaps loses its events exactly when neither the reads nor the full load answer |
| TaskSynchronizer.Synchronizer.DrainPending | frontend/src/taskEventSync.ts:175-205 | afterwards lastSeq has reached every valid pending event |
| TaskSynchronizer.Synchronizer.Begin | frontend/src/taskEventSync.ts:152-162 | initialisation loads everything |
| TaskSynchronizer.Synchronizer.ReconcileHead | frontend/src/taskEventSync.ts:207-224 | afterwards lastSeq is not behind the head that was read; it moves back only when that head is below it, and, with nothing else happening meanwhile, exactly when the snapshot's head is below it too |
| TaskSynchronizer.Synchronizer.ForceSnapshot | frontend/src/taskEventSync.ts:119-128 | a resync loads again, and then nothing is owed |
| TaskSynchronizer.Synchronizer.Serve | frontend/src/taskEventSync.ts:142-287 | for every queue of work, pushes, gaps and failures: at rest the missed events up to lastSeq are exactly the owed ones, and none unless a full load failed |
| TaskSynchronizer.LosesAnEvent | frontend/src/taskEventSync.ts:175-205 | one pushed event, two rejected loads: lastSeq stands at 1 and event 1 is missed |
| TaskSynchronizer.MovesBack | frontend/src/taskEventSync.ts:207-224 | a head that lags behind takes lastSeq back from 1 to 0 |
| JsonFramer.ReadBoundedJSONObject | internal/query/decoder.go:259-330 | the byte loop computes the frame, reading at most limit + 1 bytes |
| JsonFramer.Frame | internal/query/decoder.go:259-330 | one call reads within limit + 1 bytes and makes progress when it finds an object |
| JsonFramer.ValuePasses | internal/query/decoder.go:290-328 | any JSON value in any spelling, brackets and escapes inside strings included, passes at unchanged depth |
| JsonFramer.FramesExactly | internal/query/decoder.go:259-330 | whitespace, an object text, then anything: exactly the object is returned and the reader stands behind it, or it is too large |
| JsonFramer.StreamSplits | internal/query/decoder.go:150-160 | a concatenation of objects splits back into those objects |
| ChunkOrder.CheckOrder | internal/query/decoder.go:172-256 | the state machine accepts exactly the responses whose statements and series parts are complete and in order |
| RowCodec.RowRoundTrip | internal/query/result_store.go:329-408 | every row the encoder accepts decodes to itself |
| RowCodec.RowCanonical | internal/query/result_store.go:438-498 | every byte string the decoder accepts re-encodes to itself |
| RowCodec.U32RoundTrip | internal/query/result_store.go:500-511 | big-endian lengths are exact |
| RowCodec.EncodeTypedRow | internal/query/result_store.go:329-358 | the buffer loop computes the row encoding |
| RowCodec.DecodeTypedRow | internal/query/result_store.go:438-498 | the offset loop computes the row decoding |
| ResultStore.Store.WriteSpillRow | internal/query/result_store.go:233-263 | a written frame reads back as its payload; a torn write is referred to by nothing |
| ResultStore.Store.EnsureSpill | internal/query/result_store.go:174-210 | moving to disk changes no row, even when it fails half way |
| ResultStore.Store.AppendDecodedRow | internal/query/result_store.go:99-131 | a row is added exactly as accepted or not at all, and the limits are never exceeded |
| ResultStore.Store.ReadRow | internal/query/result_store.go:265-287 | a stored row reads as what was appended |
| ResultStore.Store.ReadRows | internal/query/result_store.go:147-172 | a page is the slice of the series' plain list, wherever its rows are, and a series without rows has none |
| ResultStore.Store.RowCount | internal/query/result_store.go:133-138 | the count of a series is the length of its plain list |
| QuerySession.ResultsAreFinal | internal/query/service.go:804-911 | in every life of a session rows can be read only after its end, the snapshot says exactly when, and they never change until they are gone for good |
| QuerySession.NoStateConflict | internal/query/command.go:295-325 | the state conflict at the end of the command branches is unreachable |
| QueryRecord.Record.Cancel | internal/query/command.go:270-337 | the method is the cancel step and keeps the invariant |
| QueryRecord.Record.Close | internal/query/command.go:270-337 | the same for close, which hands the store back to be removed |
| QueryRecord.Record.Finish | internal/query/service.go:804-868 | the decoded store becomes readable in the step that ends the session, or is handed back |
| QueryRecord.Record.Detach | internal/query/service.go:962-982 | the idle result goes and the snapshot says so |
| QueryRecord.Record.GetResultPage | internal/query/service.go:565-651 | the page read from the live store is the page of the session's plain lists |
| ResultPaging.PageProgresses | internal/query/service.go:565-651 | every page of a session that can exist is the slice behind its cursor, and either the last or strictly further on; EOF exactly at the last row |
| ResultPaging.FirstPageExactly | internal/query/service.go:565-651 | a first page is given exactly for a held, readable series with at least one row |
| ResultPaging.EmptySeriesFails | internal/query/result_store.go:147-155 | a response with columns and no values ends in a series whose first page is a storage error |
| ResultPaging.WriteRows | internal/query/result_csv.go:22-135 | exactly the selected rows of the stored series, in order, each once; never a stall; success whenever the session is left alone and cursors live; each selection error exactly when it is due |
| ResultPaging.AllRowsOnce | internal/query/result_csv.go:57-135 | asked for everything, the walk delivers the series whatever indexes the request lists besides |
| ResultPaging.SelectionComplete | internal/query/result_csv.go:97-118 | stopping at the last row, or once as many rows are written as were asked for, leaves no selected row out |
| ResultPaging.StallsExactlyAtTheLiveEnd | internal/query/result_csv.go:119-126 | without the invariant: the cursor would repeat exactly at the end of a result whose session has not ended |
| LineProtocol.TokenRoundTrip | internal/exportfmt/encode.go:210-216 | escaping arbitrary text is undone by the reader |
| LineProtocol.ValueRoundTrip | internal/exportfmt/encode.go:177-208 | every printable field value decodes to itself with its kind |
| LineProtocol.LineRoundTrip | internal/exportfmt/encode.go:84-131 | a printed line decodes to its measurement, tags, fields and timestamp |
| LineProtocol.SortedKeys | internal/exportfmt/encode.go:220-227 | every key once, in ascending order |
| LineProtocol.EncodePoint | internal/exportfmt/encode.go:84-131 | succeeds exactly on encodable points and then prints them |
| LineProtocol.PrintIsCanonical | internal/exportfmt/encode.go:84-131 | the maps alone determine the line |
| LineProtocol.LinesAreUnique | internal/exportfmt/encode.go:84-131 | no two different points share a line |
| LineProtocol.AcceptedIsPrintable | internal/exportfmt/encode.go:177-208 | what the printer accepts is within the decodable form |
| ReadLanes.AfterInv | internal/scheduler/read_lanes.go:66-145 | the invariant holds after every interleaving of acquire, cancel and release |
| ReadLanes.SlotsAreConserved | internal/scheduler/read_lanes.go:66-145 | in-flight is the number of owned slots, handed-off ones included, within the limit; waiters only when full |
| ReadLanes.ServedInOrder | internal/scheduler/read_lanes.go:130-145 | slots are given in order of arrival |
| ReadLanes.ReleaseThenCancel | internal/scheduler/read_lanes.go:92-109 | a cancel that loses the race has the lease |
| ReadLanes.CancelThenRelease | internal/scheduler/read_lanes.go:92-109 | a cancel that wins passes the slot on, or back |
| ReadLanes.State.Acquire | internal/scheduler/read_lanes.go:66-91 | the method is the acquire step |
| ReadLanes.State.Cancel | internal/scheduler/read_lanes.go:92-109 | the branch of the ended context is the cancel step |
| ReadLanes.State.Release | internal/scheduler/read_lanes.go:112-145 | the method is the release step |
| ExportLaneSafety.AfterInv | internal/exportlane/scheduler.go:181-491 | the invariant holds after every sequence of calls and worker steps |
| ExportLaneSafety.ReadyIsExact | internal/exportlane/scheduler.go:181-335 | while open, a ready list holds exactly the queued unclaimed jobs, each once |
| ExportLaneSafety.OneClaimPerGeneration | internal/exportlane/scheduler.go:394-410 | a generation has at most one claimed job |
| ExportLaneSafety.QuantaAreConserved | internal/exportlane/scheduler.go:446-491 | completed and remaining quanta are the submitted list; SUCCEEDED exactly when none remains |
| ExportLaneSafety.NoQuantumMismatch | internal/exportlane/scheduler.go:446-460 | the mismatch branch is unreachable |
| ExportLaneSafety.TerminalIsForever | internal/exportlane/scheduler.go:229-283 | the terminal flag never resets |
| ExportLaneSafety.CanceledIsLeftExactly | internal/exportlane/scheduler.go:424-444 | CANCELED is left exactly when a paused claimed job comes back unstarted |
| ExportLaneSafety.CanceledCanBeLeft | internal/exportlane/scheduler.go:432-434 | submit, claim, pause, cancel and a refused lane overwrite CANCELED; the terminal flag stays |
| ExportLaneSafety.ReadyIsFifo | internal/exportlane/scheduler.go:394-410 | a ready job at position k is claimed after at most k other claims unless cancelled, paused or closed |
| ExportScheduler.Scheduler.Submit | internal/exportlane/scheduler.go:181-215 | the method is the submit step |
| ExportScheduler.Scheduler.Cancel | internal/exportlane/scheduler.go:229-261 | the method is the cancel step, with the job cut out of its ready list |
| ExportScheduler.Scheduler.Restart | internal/exportlane/scheduler.go:263-283 | the method is the restart step |
| ExportScheduler.Scheduler.PauseGeneration | internal/exportlane/scheduler.go:288-315 | the loop over records in any order is the pause step |
| ExportScheduler.Scheduler.Close | internal/exportlane/scheduler.go:337-364 | the loop over records in any order is the close step |
| ExportScheduler.Scheduler.Claim | internal/exportlane/scheduler.go:394-410 | the loop drops stale ids and claims the first claimable job |
| ExportScheduler.Scheduler.Advance | internal/exportlane/scheduler.go:366-491 | the worker's step: lease, refusal, start or settlement |
| ArtifactReservation.OutstandingAdds | internal/exportjob/artifact_reservation.go:465-494 | one new row adds exactly its unconsumed bytes |
| ArtifactReservation.OutstandingSplits | internal/exportjob/artifact_reservation.go:465-494 | outstanding bytes are one sum, whichever row is counted first |
| ReservationSafety.LedgersAreReadable | internal/exportjob/artifact_reservation.go:95-106 | the reader's accounting checks never refuse |
| ReservationSafety.ReserveKeeps | internal/exportjob/artifact_reservation.go:21-171 | a refusal changes nothing; a success keeps the ledgers in order and leaves more extents than the ordinal |
| ReservationSafety.FreshIsUnbound | internal/exportjob/artifact_reservation.go:367-400 | a row that did not exist stands behind no extent |
| ReservationSafety.ReserveLeavesFloor | internal/exportjob/artifact_reservation.go:496-510 | after every reservation what is outstanding leaves the volume's floor free |
| ReservationSettlement.SettledRowsAre | internal/exportjob/artifact_reservation.go:213-235 | the loop gives each row its share, reserved and consumed alike, and writes no other row |
| ReservationSettlement.SharesAddUp | internal/exportjob/artifact_reservation.go:213-238 | consumed bytes plus what remains are the actual size |
| ReservationSettlement.SettleAcceptsExactly | internal/exportjob/artifact_reservation.go:187-238 | an active ledger settles exactly when the fragment is complete at that size and its extents cover it |
| ReservationSettlement.SettleKeeps | internal/exportjob/artifact_reservation.go:177-253 | settling keeps every ledger in order; a refusal changes nothing |
| ReservationSettlement.SettleFrees | internal/exportjob/artifact_reservation.go:173-253 | settling takes exactly the reserved bytes off what is outstanding |
| ReservationSettlement.AbortKeeps | internal/exportjob/artifact_reservation.go:257-330 | aborting touches no other artifact's ledger or rows |
| ReservationSettlement.AbortFrees | internal/exportjob/artifact_reservation.go:308-316 | releasing gives back exactly what was reserved |
| ReservationSettlement.ReserveAdds | internal/exportjob/artifact_reservation.go:132-151 | reserving adds one extent exactly when it inserts a row |
| ReservationSettlement.AfterInv | internal/exportservice/service.go:522-574 | ledgers, attempts and writers stay consistent over every interleaving, takeovers, restarts and other jobs included |
| ReservationSettlement.ActiveExtents | internal/exportjob/artifact_reservation.go:95-171 | an ACTIVE artifact has extents 0..n-1 on distinct untouched rows that sum to reserved_bytes |
| ReservationSettlement.SettledExtents | internal/exportjob/artifact_reservation.go:213-249 | a SETTLED artifact's rows have reserved equal consumed and sum to its actual size |
| ReservationSettlement.CompletedWriterSettles | internal/transfer/gzip.go:75-89 | reserve before write: a completed writer's settlement is never refused |
| ReservationStore.Store.Get | internal/exportjob/artifact_reservation.go:402-463 | the row-by-row read check |
| ReservationStore.Store.VolumeOutstanding | internal/exportjob/artifact_reservation.go:465-494 | the int64 sum is exact or refused, in any row order |
| ReservationStore.Store.Reserve | internal/exportjob/artifact_reservation.go:21-171 | the method is the reserve step |
| ReservationStore.Store.Settle | internal/exportjob/artifact_reservation.go:177-253 | the settle loop is the settle step, dropped as a whole when something remains |
| ReservationStore.Store.Abort | internal/exportjob/artifact_reservation.go:257-330 | the delete loop is the abort step |
| ReservationStore.Service.Reserve | internal/exportservice/service.go:522-558 | the attempt advances exactly when the repository agrees |
| ReservationStore.Service.Settle | internal/exportservice/service.go:560-566 | settles and forgets the attempt |
| ReservationStore.Service.Abort | internal/exportservice/service.go:568-574 | aborts and forgets the attempt |
| ReservationStore.ExtentWriter.Write | internal/transfer/gzip.go:75-89 | no byte is written before extents cover the whole slice; each Write is a run of reserve steps and one write step |

## Left out

- REPLAY_EXACT segments and the CONTINUE resolutions of an incident: runs have NORMAL segments only; `StagedBatch` covers the batch an exact replay would cut.
- Creating an import, the staging parsers and the normalisation they write: the staging file is given.
- RunNext's sequencing and the classification of write responses: the outcome of an attempt is an input of the machine.
- The fields of a checkpoint that never change (hashes, spec, target): one opaque identity string stands for them.
- SQL text, migrations and schema checks: tables are maps; the unique indexes of the import tables appear as refusals that are proved unreachable or used.
- Input and output errors of the database and of readers, other than those that are inputs of a step (a lost answer, a failed load, a torn spill write).
- JsonFramer.ReadBoundedJSONObject: does not model a read error other than end of input.
- ChunkOrder.CheckOrder: takes decoded chunks; JSON decoding of an envelope, scalar typing, truncation by the row limit and MakeSeriesID are not modelled.
- RowCodec.RowRoundTrip: JSON number syntax is a parameter of the codec, shared by encoder and decoder.
- LineProtocol.ValueRoundTrip: a float field decodes to its printed text; that the text reads back as the same binary number is strconv's.
- Cryptography: SHA-256 is injective by construction, AES-GCM is inverse by assumption of the parameter, UUIDs and random tokens are fresh by the guard of the step.
- Registration of a generation, PurgeClosed and commands for an unregistered generation in the protection manager.
- ProtectionSafety.LeaseMeansUnlocked: states only that a lease implies unlocked; the converse fails, and `ProtectionLeases.UnlockedWithoutLease` says exactly when.
- Tokens of mutation previews beyond their one use; the classification of InfluxQL statements and of responses into the three answers.
- OperationSafety.RecoverySettles: is about operations; the mirrored rows of import and export jobs in the shared recovery are not modelled.
- OperationSafety.NotSentForever: assumes that an error of the round-trip barrier means the round trip was not entered.
- TaskSynchronizer.Synchronizer.Serve: awaits are resolved by a finite script of what happens outside; an event store that is emptied underneath is not modelled.
- The persistent query service: stored snapshots and their revisions, archival, and a terminal state that cannot be persisted (finish then returns early and keeps its slot). `QuerySession` is the in-memory service.
- QuerySession.ResultsAreFinal: the lanes of the query service, idempotent starts and the issue texts are not modelled; promotion from the queue is an event.
- ResultPaging.WriteRows: cursors are authentic; their encoding and signature are not modelled.
- ResultStore.Store.AppendDecodedRow: does not state which faults of the disk make it fail, only that a failed append adds nothing.
- CSV text, formula neutralisation and timestamp formatting of a row.
- ReservationSettlement.SettledExtents: holds while the job's reservations exist; success and cleanup of a job delete all its reservation rows (internal/exportjob/repository.go:344 and 422), and that is not modelled.
- ExportLaneSafety.TerminalIsForever: is about the terminal flag and not about the CANCELED state, which can be left.
- ExportLaneSafety.ReadyIsFifo: counts claims; it assumes nothing about when a worker runs.
- Waiting for in-flight work in PauseGeneration and Close, timeouts and contexts of the export scheduler.
- The gzip encoder, durable renames and fragments' own state machine: fragment states are inputs of the reservation machine.
- UI, bridge, credential stores, private directories, HTTP transport and the release tool.
