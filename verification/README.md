# StreamGive backend: a verified model

StreamGive indexes two Stellar contracts (a donation vault and an NGO registry) into
Postgres, serves the result over HTTP, takes in NGO applications and sends webhooks. This
project models the parts whose correctness depends on order, failure or concurrency, and
proves what they keep. Nothing of the original program is executed.

`dafny verify dfyconfig.toml` checks everything. The files by subject:

| files | subject |
|---|---|
| `Events`, `StreamTables`, `AuditReading`, `Redelivery` | the event handlers on the stream, NGO and donor tables; the tables read back from the audit log; what a second delivery does |
| `Chain`, `Worker`, `Indexer`, `IndexerRuns`, `PollAnswers` | the polling loop with its two cursors, over every run with page cuts, failures, crashes and restarts; what each answer makes of a poll |
| `CrashDrift`, `AppliedTwice`, `LostEvents`, `CommittedFates` | what the process after a crash does to the tables, which events a restart leaves out, and which are committed and given up all the same |
| `IndexerLock`, `LockProtocol`, `LockLoss` | several workers and the advisory lock, and what exactly a failed lock connection allows, noticed or not |
| `DeadLetters`, `RecordedRows`, `ReplayHandlers`, `DeadLetterPaging` | recording, replaying (with any dispatcher, and with the handlers), pruning and listing failed events |
| `Intake`, `IntakeTables`, `IntakeSafety`, `IntakeAnswers`, `IntakeRace` | NGO applications as interleaved requests, one database statement at a time |
| `Notifications`, `NotificationRuns` | webhook de-duplication in memory and in the log, one call and whole runs |
| `Keyset`, `CursorWalk`, `Listings`, `Totals`, `Csv`, `WorkerPool`, `Reconcile` | the read side: pages, rankings, sums, shares, the CSV export, the worker pool |

How it is built. Code that updates state in place is a class whose methods are proved
equal to a step function on values (`Indexer.IndexerProcess.PollOnce` to `Worker.Poll`,
`IntakeTables.Tables` to `Intake.Act`, `Notifications.NotificationService` to
`Notifications.Notify`, `WorkerPool.SharedMap` to `WorkerPool.Step`). The properties are
then lemmas about all runs of that function. Everything outside the program (RPC answers,
failing writes, the moment of a crash, random ids, signatures, the error classifier) is an
oracle argument, and the lemmas hold for every oracle.

The main results, hardest first:

1. In one process lifetime the events between the starting position and the cursor each
   have exactly one entry, in log order, and the tables are those entries' effects applied
   once (`EveryEventIsAccountedOnce`).
2. A crash hands out again exactly the events whose saves failed since the last good save,
   plus the one in flight if its handler had committed; before any good save, all of them or
   none, by whether a start ledger is configured (`CrashRedeliversExactlyTheUnsaved`). Over a
   whole run every event has an entry in some process's history iff no process began at a tip
   that had run away from the last cursor (`EventsLostIffTipRanAway`). At every moment of the
   process after a crash, every stream and NGO row the crash found is given by what that
   process has committed (`CrashDriftsStreams`, `CrashDriftsNgos`). Events are given up only
   when the RPC no longer reaches back to them (`OnlyAgedOutGivesUp`), and one that was
   dead-lettered can be replayed (`DeadLetteredEventIsReplayed`).
3. In every state reachable by any deliveries, redeliveries and replays the three tables
   equal a declarative reading of the audit log (`TablesReadBackFromLog`).
4. In every interleaving an address has one live application, a challenge allows one
   create attempt, a token verifies once, and a review is final (`IntakeSafety`). Every
   application goes back to a valid signature of its owner, and a challenge or token stays
   good until it expires, is used or is replaced (`IntakeAnswers`).
5. In every run, of two workers that poll together one is not the server's holder, and its
   connection failed while it had the very handle it polls on, whether it noticed or not
   (`AtMostOnePolls`). Overlapping polls and stale cursors have exact conditions (`OverlapIff`,
   `StaleIff`). Without such a failure several workers are together one process with restarts
   (`WorkersAreOneProcess`), and a stopped worker stays stopped in any case (`StopIsFinal`).
6. An independent RFC 4180 (section 2) reader undoes the CSV export, and finds each stream's
   own columns under the fourteen headers (`ExportReadsBack`).
7. A walk over dead letters misses no row that matched throughout, whatever is recorded,
   resolved or replayed meanwhile (`WalkMissesNothing`, `WalkDuringRun`).
8. A webhook channel is posted to up to its first success, and beyond it only after a success
   lost its log row; this is exact over all continuations (`PostsStopAtFirstSuccess`,
   `StopsForGoodIffLogKeepsSuccess`). Nobody is posted an event that is not for them
   (`EndpointGetsItsKinds`).

## Assumptions

- The RPC tip never decreases, a ledger's events appear all at once, pages are the log's
  next events cut anywhere, and an empty page means no event up to the tip read before it.
- A handler's transaction is atomic, and so is a single database statement. A conditional
  update or delete and the upsert of a contact token are single statements.
- A handler learns whether its transaction committed: a COMMIT that takes effect while its
  acknowledgement is lost is not modelled for vault handlers. (A checkpoint or dead-letter
  write may fail and yet be written.)
- A dead letter recorded during a walk is stamped later than the rows the walk started with;
  two recordings within one millisecond of the clock are not told apart by the model.
- The impact endpoint reads the NGO and the platform in two queries; the share lemmas are for
  both reading the same table.
- Token and stream amounts in events are non-negative where a lemma says so.
- Random values (row ids, challenges, tokens) are fresh; hashing is injective; a row id
  stands for the address it belongs to.
- Text columns and `localeCompare` are ordered by code points, as one strict total order.
- `reconcileVerification --fix`, the display-name PATCH and seeding do not run beside the
  indexer. The replay script and log retention are not moves of `IndexerRuns` either: that the
  tables are the history's commits applied once, and that dead-lettered events are in the
  dead-letter table, is stated for runs without them. (`AuditReading` and `DeadLetterPaging`
  have replays, and retention, among their operations.)
- The server ends a lock session at any time, also without the client noticing. Once a client
  has noticed, its session may still linger at the server.
- Prisma refuses an invalid date before it sends the statement.

## Where the code does less than its comments say

The model follows the code. These lemmas name the difference.

- `src/indexer/worker.ts:239-242` and `docs/INDEXER.md` bound a crash's damage to "at most
  the in-flight event". Memory moves before the save, so failed saves add up without bound
  (`IndexerRuns.AnyNumberIsRedelivered`); the exact count is in `CrashRedeliversExactlyTheUnsaved`.
- `docs/INDEXER.md:88-91` says a restart never re-processes events; the same two lemmas apply,
  and in `AppliedTwice.EveryEventAppliedTwice` every event of a log is applied a second time.
- The same lines say a restart never skips remaining events. If the very first save fails and
  the process is restarted without a configured start ledger, it begins at the new tip, and
  what arrived meanwhile is in no history (`LostEvents.FailedFirstSaveLosesEvent`). The exact
  conditions are in `LostEvents.EventsLostIffTipRanAway` and `LostEvents.CrashLosesIffNeverSaved`.
- A configured `INDEXER_START_LEDGER` is itself not indexed; the first poll asks for the
  ledger after it (`IndexerRuns.StartLedgerItselfIsNotIndexed`).
- The flag that `src/indexer/worker.ts:309` asks turns false only when the connection's error
  arrives. Until then, or for good, a worker starts new polls beside the lock's new holder
  (`LockProtocol.UnnoticedEndLetsTwoPoll`).
- A worker that loses the advisory lock keeps its cached cursor
  (`LockProtocol.LostConnectionLetsTwoPoll`, `LockProtocol.RegainedLockUsesStaleCursor`). The
  exact conditions of both are `LockLoss.OverlapIff` and `LockLoss.StaleIff`.
- A redelivered `created` appends a second audit row, and so does a registry event
  (`AuditReading.CreatedTwiceHasTwoRows`); `Redelivery.RedeliveredEventIsAuditedAgain` says
  exactly which events do, and `AuditReading.RowsCountCommits` counts the rows over any run.
- An approve or reject that loses the race answers 404 `not_found` for an application that
  exists, although the documented answer for a reviewed one is 409
  (`IntakeSafety.LostRaceSaysNotFound`, reached in `IntakeRace.ReviewLosesRace`).
- A delivered webhook is sent again after a restart if its log write failed, or if log
  retention has deleted its row (`NotificationRuns.LostLogRowSendsAgain`).
- A replayed row counts two attempts when its event is for an unknown stream and the
  transaction fails after the handler recorded it (`ReplayHandlers.AttemptsRiseByOne`).
- A registry event whose handler fails after its commit is in the tables and may be
  dead-lettered or skipped as well (`CommittedFates.CommittedAndDeadLettered`,
  `CommittedFates.CommittedAndSkipped`); no vault event is. Which one is, exactly, is in
  `CommittedFates.ThrownAndCommittedIff` and `CommittedFates.SkippedAndCommittedIff`.
- `src/scripts/replayDeadLetters.ts:63-64` says a dead letter stores the fields handlers read.
  It lacks the ledger's close time, so a replay never applies a creation, withdrawal or
  cancellation (`ReplayHandlers.PassLeavesStreams`) and never settles its row while there is
  something to write (`ReplayHandlers.VaultRowResolvedIff`).

## Model

| member | source | states |
|---|---|---|
| StreamTables.StreamDb.HandleStreamCreated | src/indexer/handlers/donationVault.ts:42-94 | whatever database call fails, tables and audit log change together or not at all; an existing stream row is never overwritten |
| StreamTables.StreamDb.HandleWithdraw | src/indexer/handlers/donationVault.ts:117-176 | the four outcomes (unknown, cancelled, clamped, plain) on tables, audit log and dead letters, for each failing database call |
| StreamTables.StreamDb.HandleCancel | src/indexer/handlers/donationVault.ts:202-254 | cancelling settles once; an unknown stream becomes a dead letter even if the commit then fails |
| StreamTables.StreamDb.HandleNgoRegistryEvent | src/indexer/handlers/ngoRegistry.ts:30-110 | the read after the commit makes a handler that has committed and still throws |
| StreamTables.StreamDb.Dispatch | src/indexer/dispatch.ts:6-17 | every event reaches its one handler, with that handler's effect, and unwatched contracts and topics change nothing |
| AuditReading.ClampCollapses | src/indexer/handlers/donationVault.ts:143-159 | clamping at every withdrawal gives the same balance as one clamp of the sum |
| AuditReading.DeliverKeepsInv | src/indexer/handlers/donationVault.ts:54-254 | any delivery, with any fault, keeps the tables equal to the log's reading |
| AuditReading.TablesReadBackFromLog | src/indexer/handlers/donationVault.ts:54-254 | in every reachable state stream, NGO and donor tables equal the declarative reading of the audit log, and no stream has two cancellation rows |
| AuditReading.RowsCountCommits | src/indexer/handlers/donationVault.ts:79-94 | over any run an event is in the log as often as it was committed with an audit row; a creation or registry event once for every delivery that got to its commit |
| AuditReading.CreatedTwiceHasTwoRows | src/indexer/handlers/donationVault.ts:60-94 | a creation delivered twice leaves two audit rows and the tables of one |
| AuditReading.AtMostOneCancellation | src/indexer/handlers/donationVault.ts:220-226 | a log the handlers write holds at most one cancellation per stream |
| AuditReading.CancelledIsAbsorbing | src/indexer/handlers/donationVault.ts:135-141 | no delivery of any kind changes a cancelled stream's row |
| AuditReading.CancelledStreamConserves | src/indexer/handlers/donationVault.ts:143-238 | if the chain's payouts and refund make up the deposit, then withdrawn + refund = deposit and no withdrawal was ever clamped |
| AuditReading.LiveStreamConserves | src/indexer/handlers/donationVault.ts:143-163 | a live stream's balance and withdrawn make up the deposit iff the payouts stay within it |
| Redelivery.RedeliveredEventDrifts | src/indexer/handlers/donationVault.ts:60-163 | a second delivery changes the tables iff it is a non-zero withdrawal from a live stream, and then that row's withdrawn by exactly the amount |
| Redelivery.RedeliveredEventIsAuditedAgain | src/indexer/handlers/donationVault.ts:79-163 | a second delivery appends a second audit row iff it is a creation, a withdrawal from a live stream, or a registry event that is audited at all |
| Redelivery.RegistryEffectIsIdempotent | src/indexer/handlers/ngoRegistry.ts:37-103 | a registry event that committed, failed and is retried leaves the same tables |
| Redelivery.RedeliveredSegmentDriftsStreams | src/indexer/handlers/donationVault.ts:143-163 | redelivering a whole segment moves a live stream by the segment's withdrawals and leaves every other stream row alone |
| Redelivery.RedeliveredSegmentDriftsNgo | src/indexer/handlers/ngoRegistry.ts:37-103 | an NGO row changes on redelivery iff the segment's last verdict was an approval that came before the NGO was known |
| ChainLog.AfterEventFinds | src/indexer/worker.ts:178-180 | an event cursor resumes right behind its event, in mid-ledger too |
| ChainLog.IndexIsStable | src/indexer/worker.ts:178-186 | a position the chain has passed keeps its place in the log however the chain grows |
| ChainLog.IndexWithinLedger | src/indexer/worker.ts:209-213 | leaving an event cursor for the end of a later ledger never goes back |
| Worker.GrowKeepsInv | src/indexer/worker.ts:167-186 | chain growth between the tip read and the scan disturbs nothing already accounted for |
| Worker.MoveKeepsInv | src/indexer/worker.ts:243-245 | passing an event adds exactly one entry, whether or not its save succeeds |
| Worker.HandlerKeepsInv | src/indexer/worker.ts:216-219 | a handler run again after it committed applies nothing twice, as only registry events can be in that position |
| Worker.HandleOneKeepsInv | src/indexer/worker.ts:216-246 | one turn of the loop, with any handler outcome, dead-letter write, save and death, keeps the accounting |
| Worker.HandlePageKeepsInv | src/indexer/worker.ts:216-247 | so does a page, cut anywhere and left at any event |
| Worker.JumpKeepsInv | src/indexer/worker.ts:209-213 | the jump after an empty scan passes no event |
| Worker.SkipKeepsInv | src/indexer/worker.ts:187-200 | a skip-ahead accounts for every event it gives up |
| Worker.PollKeepsInv | src/indexer/worker.ts:137-247 | a whole poll keeps the accounting for every answer of the outside world, including dying in any write |
| Worker.RestartKeepsInv | src/indexer/worker.ts:142-156 | a new process starts a new account from the saved position |
| Indexer.IndexerProcess.SaveCheckpoint | src/indexer/checkpoint.ts:26-32 | the one checkpoint row is overwritten by the cached position, or kept |
| Indexer.IndexerProcess.HandleEvent | src/indexer/worker.ts:216-246 | the loop body on fields and tables is the step the invariant is proved for |
| Indexer.IndexerProcess.HandleEvents | src/indexer/worker.ts:216-247 | the loop stops at the first event that does not finish and leaves the rest unhandled |
| Indexer.IndexerProcess.PollOnce | src/indexer/worker.ts:137-247 | the imperative poll and its exit are the function all run properties, and those of `PollAnswers`, are about |
| PollAnswers.RefusedPollChangesNothing | src/indexer/worker.ts:142-203 | over every run a failed checkpoint read, a failed tip, or any RPC error but "out of range" leaves history, pending commit, tables, dead letters and checkpoint as they were, and the cursor in place |
| PollAnswers.OnlyAgedOutGivesUp | src/indexer/worker.ts:187-200 | over every run an event is given up only in a poll that got the tip, asked for events, and was told its position has aged out |
| PollAnswers.AgedOutGivesUp | src/indexer/worker.ts:187-200 | such a poll gives up exactly the events up to the tip, in order, does nothing else, and has its cursor, and if the save succeeds its checkpoint, at the tip |
| PollAnswers.IdleScanReachesTip | src/indexer/worker.ts:209-213 | an empty page moves cursor and checkpoint to the tip and gives nothing up |
| PollAnswers.PageIsHandledInOrder | src/indexer/worker.ts:216-247 | a page is handled from its first event on, in order, as far as the poll gets, all of it if it finishes; the cursor is behind the last handled event, and none is given up |
| PollAnswers.TurnGetsPastIff | src/indexer/worker.ts:216-246 | the loop gets past an event iff its handler returned, or its failure is permanent and on record; then the cursor and, if the save succeeds, the checkpoint are behind it, and otherwise both stay |
| PollAnswers.UndecodableIsDeadLettered | src/indexer/worker.ts:219-231 | over every run an event whose payload cannot be decoded never counts as handled: it is dead-lettered, with its row on record, or given up with an aged-out stretch |
| PollAnswers.QuietPollChangesNothing | src/indexer/worker.ts:137-171 | a poll that has nothing to ask for changes nothing, but that a first process begins at its first position and saves it |
| Indexer.IndexerProcess.Restart | src/indexer/worker.ts:38-42 | only the checkpoint and the tables survive a process |
| IndexerRuns.EveryEventIsAccountedOnce | src/indexer/worker.ts:137-247 | in every run, one entry per event from origin to cursor, in log order, each with the fate the tables at that point call for: applied iff committed and audited, ignored iff neither, dead-lettered or skipped with nothing in the tables unless it is a registry event; dead-lettered ones are in the table; stream and donor tables are the committed entries applied once |
| IndexerRuns.CrashRedeliversExactlyTheUnsaved | src/indexer/worker.ts:239-245 | a crash hands out again the events since the last save that reached the disk, and the handled ones among them number exactly the failed saves; before any such save, all events of the process if a start ledger is configured, and otherwise none, not even those that arrived behind its cursor |
| IndexerRuns.FailedSavesAddUp | src/indexer/worker.ts:239-245 | from any moment with n events left, a run of n polls leaves n handled events unsaved |
| IndexerRuns.AnyNumberIsRedelivered | src/indexer/worker.ts:239-245 | from a first start, for any tables and any n events, a run ends with the saved position before and the cursor behind all n, so that a crash redelivers them all |
| IndexerRuns.CheckpointNeverMovesBack | src/indexer/checkpoint.ts:26-32 | over any run with restarts the saved position never moves backwards |
| IndexerRuns.CursorNeverMovesBack | src/indexer/worker.ts:195-245 | within a process neither does the cached one |
| CrashDrift.CrashHandsOutAgain | src/indexer/worker.ts:142-156 | at every moment after a crash the process has been handed the log from the saved position on, or from the configured ledger on, or none of what was on the chain at the crash; the tables are the ones the crash left with its commits applied once |
| CrashDrift.CrashDriftsStreams | src/indexer/worker.ts:239-245 | at every moment after a crash a cancelled stream's row is as it was, and a live one is withdrawn from by exactly the withdrawals committed since, first delivery or second, up to its first cancellation |
| CrashDrift.CrashDriftsNgos | src/indexer/worker.ts:239-245 | at every moment after a crash an NGO row has the last name and verdict committed since, or the ones it had |
| CrashDrift.SameCommitsAgainDrift | src/indexer/worker.ts:239-245 | once the process has committed again what was committed since the saved position, an NGO row is off iff its last verdict was an approval that came too early; and if each committed cancellation was of a stream already known, live streams are off by the withdrawals and no other stream row is |
| AppliedTwice.EveryEventAppliedTwice | src/indexer/worker.ts:239-245 | for any tables and events there is a run from a first start in which exactly that happens: every decodable event is applied twice |
| LostEvents.EventsLostIffTipRanAway | docs/INDEXER.md:81-91 | over any run every event from the first ledger to the cursor has an entry in some process's history iff no process, with neither checkpoint nor start ledger, began at a tip when events lay behind the last process's cursor |
| LostEvents.NothingLostOnceSaved | src/indexer/worker.ts:142-152 | nothing is lost if a start ledger is configured, or no process with a cursor is restarted before a checkpoint is saved |
| LostEvents.CrashLosesIffNeverSaved | src/indexer/worker.ts:142-152 | a crash now, and no other, can make an event go without an entry iff no checkpoint is saved and no start ledger configured |
| LostEvents.FailedFirstSaveLosesEvent | src/indexer/worker.ts:148-152 | a run from a first start: the first save fails, an event arrives, the process restarts, and the event is behind cursor and checkpoint, in no history and not in the tables |
| CommittedFates.ThrownAndCommittedIff | src/indexer/worker.ts:219-237 | a turn that finishes after its handler threw leaves a dead-lettered entry, which is committed iff the handler failed after its commit or an earlier attempt had committed; never for a vault event |
| CommittedFates.RetriedAndCommittedIff | src/indexer/worker.ts:219-237 | a turn that ends in a retry leaves its event committed under the same condition, with the cursor before it |
| CommittedFates.SkippedAndCommittedIff | src/indexer/worker.ts:187-200 | of the events a skip-ahead gives up, the first is committed iff one was pending, and no other is |
| CommittedFates.CommittedAndDeadLettered | src/indexer/handlers/ngoRegistry.ts:37-110 | a run from a first start in which a registration is in the NGO table and in the dead-letter table |
| CommittedFates.CommittedAndSkipped | src/indexer/worker.ts:187-200 | a run from a first start in which a registration is in the NGO table and skipped |
| IndexerRuns.StartLedgerItselfIsNotIndexed | src/indexer/worker.ts:149-180 | with a start ledger configured, exactly the events up to and including that ledger are left out |
| AdvisoryLock.IndexerLock.ConnectionFailed | src/indexer/lock.ts:31-34 | the error event clears the handle's flag, and nothing at the server |
| AdvisoryLock.IndexerLock.Release | src/indexer/lock.ts:38-52 | releasing twice, or after a failure was noticed, never takes the lock from a later holder, nor frees a session that the server still keeps |
| AdvisoryLock.TryAcquireIndexerLock | src/indexer/lock.ts:14-58 | a handle is returned iff the lock was free, and a refused session leaves the holder alone |
| LockProtocol.StepKeepsSound | src/indexer/worker.ts:286-345 | every step keeps each worker's fields together: it polls only with a handle, waits with a timer unless stopped, and a resolved stop is final |
| LockProtocol.StepKeepsExclusive | src/indexer/worker.ts:286-345 | while no connection in use fails, every worker that relies on a handle is the server's holder, and a worker with a cursor holds the lock until it stops or dies |
| LockProtocol.AtMostOnePolls | src/indexer/worker.ts:291-311 | in every run, of two workers inside a poll together one is not the server's holder, and its connection failed, noticed or not, while it had the handle it polls on |
| LockProtocol.LostInThisPoll | src/indexer/worker.ts:309-311 | a worker polling on a handle it knows has failed learned of it in this very poll |
| LockProtocol.UnbackedHandleFailed | src/indexer/lock.ts:29-37 | a handle whose session is not the server's holder, or that is known to have failed, had its connection fail while the worker had that handle |
| LockProtocol.StopIsFinal | src/indexer/worker.ts:339-345 | in every run, a stop that resolved is followed by no poll, no timer and no handle, even if it raced with acquiring the lock |
| LockProtocol.StopFreesLock | src/indexer/worker.ts:339-345 | and a living worker whose stop resolved is not the server's holder, unless it had noticed a failed connection or missed the answer to its lock query |
| LockProtocol.LingeringSessionWasAbandoned | src/indexer/lock.ts:38-58 | a session that lingers at the server while its living worker relies on no handle was given up without an unlock |
| LockProtocol.OnlyTheHolderMovesPositions | src/indexer/worker.ts:309-311 | in every run the worker that changes the checkpoint is the server's holder, or a connection of it had failed while in use |
| LockProtocol.SuccessorStartsFromCheckpoint | src/indexer/worker.ts:142-156 | in every run a worker that takes over starts from the saved checkpoint; another worker moves it meanwhile only after a connection of one of the two has failed |
| LockProtocol.CursorWithoutLockLostIt | src/indexer/worker.ts:293-308 | a worker with a cursor and no working lock has had a connection fail |
| LockProtocol.CursorIsKept | src/indexer/worker.ts:142-152 | in every run a worker keeps the cursor it has, through losing the lock and getting it back, until it handles an event itself |
| LockProtocol.UndisturbedTenure | src/indexer/worker.ts:293-311 | while no connection in use fails, nobody else moves the checkpoint until a worker stops or dies |
| LockProtocol.WorkersAreOneProcess | src/indexer/worker.ts:286-345 | while no connection in use fails, the positions of all workers together move as those of one process that is restarted: it begins at the checkpoint, and only a saved cursor becomes one |
| LockLoss.OverlapIff | src/indexer/worker.ts:293-311 | with no further failure a waiting worker can join a polling one in its poll iff the polling one is not the server's holder on a handle it believes in, or the waiting one still believes in a handle of its own |
| LockLoss.StaleIff | src/indexer/worker.ts:293-308 | with no further failure and nobody going back in the log, a waiting worker can come to poll from a cursor behind the checkpoint iff it has a cursor, and that is behind already, or the worker is not the server's holder on a handle it believes in, or another worker polls or can poll without asking for the lock |
| LockProtocol.UnnoticedEndLetsTwoPoll | src/indexer/worker.ts:309-311 | a run in which a session ends unnoticed and its worker starts a poll beside the new holder |
| LockProtocol.LostConnectionLetsTwoPoll | src/indexer/worker.ts:293-311 | a run in which a connection that fails in a poll lets two workers poll at once |
| LockProtocol.RegainedLockUsesStaleCursor | src/indexer/worker.ts:41-42 | a run in which a worker polls as the holder from a cursor behind the checkpoint |
| DeadLetters.DescribeError | src/indexer/deadLetter.ts:9-12 | the stored text is a beginning of the error of at most 2000 characters, all of it when it fits |
| DeadLetters.DeadLetterTable.Record | src/indexer/deadLetter.ts:66-94 | one row per event id: a new one, or the old one with one more attempt and the newest error |
| DeadLetters.RecordingSays | src/indexer/deadLetter.ts:73-93 | the upsert, field by field: a new row has the event's id, ledger and contract, one attempt and no resolution; an old one gains an attempt and the newest error and keeps the rest; no other row changes |
| RecordedRows.DeadLettersSayTheirEvent | src/indexer/deadLetter.ts:75-84 | over every run the row of an event given up as dead-lettered, if new, has that event's id, ledger and contract, and is unresolved |
| RecordedRows.FirstFailureIsReplayed | src/scripts/replayDeadLetters.ts:44-79 | an event recorded for the first time is in the next pass's snapshot, and the pass resolves it iff its contract is watched and the dispatcher returns without recording it again |
| RecordedRows.DeadLetteredEventIsReplayed | src/scripts/replayDeadLetters.ts:44-79 | the same for an event that the loop gave up in a run |
| DeadLetters.DeadLetterTable.ReplayRow | src/scripts/replayDeadLetters.ts:52-88 | resolved iff the contract is watched and the dispatcher returned without recording; every other column and row as it was |
| DeadLetters.DeadLetterTable.Replay | src/scripts/replayDeadLetters.ts:42-91 | a pass settles every snapshot row once and no other row; attempted = resolved + failed, with resolved counted exactly |
| DeadLetters.DeadLetterTable.Prune | src/maintenance/logRetention.ts:15-26 | exactly the rows resolved before the cutoff go, and the count says how many |
| DeadLetters.RetentionDays | src/maintenance/logRetention.ts:8-13 | a configured positive safe integer is used as it is, anything else gives 90 days |
| DeadLetters.RetentionDeletesOldResolved | src/maintenance/logRetention.ts:15-26 | retention deletes a row iff it was resolved longer ago than the configured days, or 90; an unresolved row stays, and what stays is as it was |
| DeadLetters.DeadLetterTable.Settle | src/scripts/replayDeadLetters.ts:67-87 | after the dispatcher: a throw is noted and counted, a failure it recorded itself is left standing, anything else resolves the row |
| ReplayHandlers.ReplayEvent | src/scripts/replayDeadLetters.ts:52-88 | one turn through the handlers themselves, on tables and dead letters, for every failing database call; a handler that needs the close time, which the rebuilt event lacks, throws before its commit |
| ReplayHandlers.ReplayPass | src/scripts/replayDeadLetters.ts:42-91 | a whole pass through the handlers: each turn meets the tables the earlier ones left, and the report counts exactly |
| ReplayHandlers.AttemptsRiseByOne | src/scripts/replayDeadLetters.ts:67-87 | a replayed row gains two attempts iff it is watched, its event withdraws from or cancels a stream unknown at that turn, and the transaction fails after the handler recorded it; otherwise one. It is resolved iff its handler returns and knew the stream |
| ReplayHandlers.PassLeavesStreams | src/indexer/deadLetter.ts:14-49 | a pass changes no stream and no donor row, whatever rows it replays and whatever fails |
| ReplayHandlers.VaultRowResolvedIff | src/indexer/handlers/donationVault.ts:57-241 | a pass resolves a vault event's row iff its contract is watched and the event had nothing to write: an ignored topic, or a withdrawal from or cancellation of a stream already cancelled |
| DeadLetters.UnresolvedRowSurvives | src/maintenance/logRetention.ts:21-22 | over any operations a row that is never resolved is never removed and its counter never falls |
| DeadLetters.ResolutionIsNeverUndone | src/indexer/deadLetter.ts:74-93 | while a resolved row exists its resolution stands, even if the event fails again |
| DeadLetters.ResolvedRowsAreNotReplayed | src/scripts/replayDeadLetters.ts:44-47 | a row one pass resolved is in no later snapshot |
| DeadLetterPaging.CursorClauseIsStrictlyAfter | src/routes/deadLetters.ts:95-105 | the OR clause keeps exactly the rows strictly after the cursor in the ORDER BY |
| DeadLetterPaging.ListProperties | src/routes/deadLetters.ts:91-120 | a page is sorted, after the cursor, and leaves out only rows after its last; it has a next cursor iff there is more, and counts all matching rows |
| DeadLetterPaging.MatchingIsWanted | src/routes/deadLetters.ts:65-80 | the rows listed for a filter are exactly all rows, the resolved ones, or the unresolved ones, as asked |
| DeadLetterPaging.PageShowsWanted | src/routes/deadLetters.ts:91-120 | a page shows nothing but such rows, and every one after the cursor up to its last |
| DeadLetterPaging.WalkMissesNothing | src/routes/deadLetters.ts:65-119 | a walk over a changing table shows, in order and once, every row that existed at its start and matched at each request, only old rows, and ends within one request more than there were rows |
| DeadLetterPaging.RunsAreEvolving | src/indexer/deadLetter.ts:74-93 | any number of recordings, replays and prunes between two requests changes the table only as the walk allows |
| DeadLetterPaging.WalkDuringRun | src/routes/deadLetters.ts:65-119 | a walk whose requests fall anywhere in a run of those operations shows every row that matched at each request, once and in order |
| DeadLetterPaging.DeletedCursorEndsWalk | src/routes/deadLetters.ts:82-89 | a deleted cursor row ends the walk with an empty page |
| IntakeTables.Tables.IssueChallenge | src/routes/ngoApplications.ts:177-187 | sweep and insert, each as the step the run properties are about |
| IntakeTables.Tables.SubmitApplication | src/routes/ngoApplications.ts:219-249 | lookup, signature and conditional delete, each as its step |
| IntakeTables.Tables.CreateUnlessBlocked | src/routes/ngoApplications.ts:128-149 | lock, re-read, insert and commit or rollback, each as its step; every way out frees the lock |
| IntakeTables.Tables.SendContactVerification | src/notifications/contactVerification.ts:36-51 | the lookup of a resend and the upsert, each as the step `IntakeAnswers` and the run properties are about |
| IntakeTables.Tables.VerifyContactToken | src/notifications/contactVerification.ts:80-102 | a token is redeemed by the delete that finds it, together with the update |
| IntakeTables.Tables.ReviewApplication | src/routes/ngoApplications.ts:523-561 | approve and reject take effect only on a row still pending |
| IntakeAnswers.LookupAnswers | src/routes/ngoApplications.ts:219-229 | a submission goes past its lookup iff the challenge is there, was issued to that owner and has not expired; otherwise it is told so |
| IntakeAnswers.SignatureAnswers | src/routes/ngoApplications.ts:231-238 | it goes past the signature check iff the signature is valid |
| IntakeAnswers.ConsumeAnswers | src/routes/ngoApplications.ts:240-249 | it gets its create attempt iff the challenge can still be presented, which is then used up |
| IntakeAnswers.EveryApplicationIsSigned | src/routes/ngoApplications.ts:231-251 | over every run each application goes back to a valid signature of its owner for the challenge that made it |
| IntakeAnswers.SweepDeletesExpired | src/routes/ngoApplications.ts:180-182 | a challenge request's sweep deletes exactly the expired challenges |
| IntakeAnswers.ChallengeExpiry | src/routes/ngoApplications.ts:177-187 | a challenge expires five minutes after its request |
| IntakeAnswers.ChallengeStaysPresentable | src/routes/ngoApplications.ts:180-187 | once issued, its owner can present it until then, whatever else happens, unless it has been used |
| IntakeAnswers.ResendGoesOnIff | src/routes/ngoApplications.ts:302-311 | a resend goes on to send a token iff the application exists and its email is unverified; everybody else gets the same answer, and no token changes |
| IntakeAnswers.SendStores | src/notifications/contactVerification.ts:36-51 | sending stores one token, good for a day, in place of the application's old one, or fails and leaves the old one |
| IntakeAnswers.TokenLivesADay | src/notifications/contactVerification.ts:37-98 | a stored token stays redeemable for that day over every run, unless a later one replaced it or it was redeemed |
| IntakeAnswers.VerificationAnswers | src/notifications/contactVerification.ts:80-102 | a link is invalid at once iff no row holds its token, an expired row is deleted and no other, and a live one verifies its application iff the row is still there at the delete |
| IntakeAnswers.ReviewAnswers | src/routes/ngoApplications.ts:523-532 | a review's lookup answers "not found", "already reviewed" or "email unverified" exactly when that is so, and otherwise goes on |
| IntakeSafety.LockStepKeeps | src/routes/ngoApplications.ts:135 | exactly the requests inside the create transaction hold a lock, each its own address's, also when lock keys collide |
| IntakeSafety.ClearStepKeeps | src/routes/ngoApplications.ts:137-147 | what the re-read found stays true until the insert, because no other request can insert for that address |
| IntakeSafety.NextKeepsInv | src/routes/ngoApplications.ts:128-149 | every statement of every request keeps the whole intake invariant and no earlier review |
| IntakeSafety.AtMostOneLiveApplication | src/routes/ngoApplications.ts:108-149 | in every interleaving an address has at most one pending or approved application |
| IntakeSafety.EndedRequestsHoldNoLock | src/routes/ngoApplications.ts:123-126 | a request outside its transaction holds no lock, however it ended |
| IntakeSafety.ChallengeAllowsOneAttempt | src/routes/ngoApplications.ts:240-251 | a challenge allows one create attempt, for the owner it was issued to, before it expires |
| IntakeSafety.ApplicationsHaveTheirOwnChallenge | src/routes/ngoApplications.ts:240-251 | every application was made by one consumed challenge of its owner, and no challenge made two |
| IntakeSafety.TokenVerifiesOnce | src/notifications/contactVerification.ts:39-101 | a token verifies at most once, its own application, and never once a later one replaced it |
| IntakeSafety.ReviewedMeansVerified | src/routes/ngoApplications.ts:530-543 | a reviewed application has a verified email, verified by a token, and a recorded reviewer |
| IntakeSafety.ReviewIsTerminal | src/routes/ngoApplications.ts:535-543 | an application once reviewed is the same row in every later state |
| IntakeSafety.ConflictAnswerIsDetermined | src/routes/ngoApplications.ts:137-145 | when an address has a live application, the re-read can only find that one, so the answer is "already approved" or "already pending" by its status |
| IntakeSafety.CreatedStays | src/routes/ngoApplications.ts:147 | a committed insert adds a new pending, unverified application of that owner, which is there in every later state |
| IntakeSafety.SuccessfulReviewStays | src/routes/ngoApplications.ts:535-551 | a review answered with success is on record with its own verdict, note and reviewer in every later state |
| IntakeSafety.VerifiedStays | src/notifications/contactVerification.ts:93-100 | an answer "verified" is true, in every later state, of the application the token was mailed for |
| IntakeSafety.ExpiredTokenIsRefused | src/notifications/contactVerification.ts:83-91 | a token in the table goes on to be redeemed iff it has not expired at the lookup |
| IntakeSafety.SweepKeepsUsable | src/routes/ngoApplications.ts:180-182 | sweeping expired challenges changes no later decision about any challenge |
| IntakeRace.ReviewLosesRace | src/routes/ngoApplications.ts:523-561 | a run from empty tables, for any owner and any two reviews, in which the second is answered "not found" |
| IntakeRace.ResendReplacesToken | src/routes/ngoApplications.ts:302-311 | a run from empty tables in which a resend replaces the first token, the first link is then invalid, and the second verifies |
| IntakeSafety.LostRaceSaysNotFound | src/routes/ngoApplications.ts:552-561 | the update answers "not found" iff the application, which exists, was reviewed meanwhile |
| Notifications.NotificationService.RememberDelivered | src/notifications/service.ts:27-34 | the memory is the last 10,000 of the ids in insertion order |
| Notifications.NotificationService.PruneOldLogs | src/maintenance/logRetention.ts:18-20 | retention deletes any set of log rows, successful ones too, and touches nothing else |
| Notifications.NotificationService.NotifyWebhookTarget | src/notifications/service.ts:66-154 | success, post and log row for each of the failing database calls |
| Notifications.NotificationService.NotifyWebhook | src/notifications/service.ts:157-191 | all channels are tried, success is their conjunction, and only an empty configuration asks for the no-op row |
| Notifications.NotificationService.NotifyEvent | src/notifications/service.ts:213-239 | the whole call is the function the run properties are about |
| Notifications.ChannelsAreDistinct | src/notifications/service.ts:166-183 | one call never addresses a channel twice |
| Notifications.ChannelsAreAddressed | src/notifications/service.ts:166-183 | a call addresses a channel iff it is that of an enabled endpoint subscribed to the event's kind, or no endpoint is enabled and it is the configured URL's |
| Notifications.SucceedsWhenAllDo | src/notifications/service.ts:189-190 | a call succeeds iff each channel could be read and has the event already or accepts it now |
| Notifications.EntersOnlyWhenAllHaveIt | src/notifications/service.ts:220-222 | an id enters the memory only in a call after which every endpoint subscribed to the event, or the configured URL, has it |
| Notifications.AnonymousGoesOutEveryTime | src/notifications/service.ts:71-115 | an event without an id is posted in every call, to everyone it is for and nobody else, and is not remembered |
| Notifications.LogsOnlyItsOwn | src/notifications/service.ts:137-148 | a call changes log rows of its own event alone: those of the channels it is for, and the no-op row where nothing is configured |
| Notifications.NothingConfigured | src/notifications/service.ts:185-236 | with nothing configured an event is remembered without a post, and the log says so unless it has a row already |
| NotificationRuns.PostsAreAskedFor | src/notifications/service.ts:166-190 | over any run whatever is posted goes to a receiver some called event of that id was for |
| NotificationRuns.EndpointGetsItsKinds | src/notifications/service.ts:167-173 | over any run an endpoint is posted only events of the kinds it is subscribed to |
| NotificationRuns.PostsStopAtFirstSuccess | src/notifications/service.ts:66-154 | over any run of calls, evictions, restarts and log retention a channel is posted to up to its first success; never again unless a success of that channel lost its log row, to a failed write or to retention |
| NotificationRuns.StopsForGoodIffLogKeepsSuccess | src/notifications/service.ts:70-80 | the condition is exact: every continuation with a working log stops at the first success iff no success so far lost its log row |
| NotificationRuns.LostLogRowSendsAgain | src/maintenance/logRetention.ts:18-20 | a failed log write, or a logged row that expires, and a restart: the event is posted twice with success |
| NotificationRuns.MemoryIsLastRemembered | src/notifications/service.ts:8-34 | in every run the memory is the last 10,000 ids remembered since the restart, each once |
| Keyset.SortedIsUnique | src/routes/ngos.ts:228-232 | a strict total order has one sorted listing of a set |
| Keyset.SortedAfter | src/routes/ngos.ts:214-232 | what comes after a row, sorted, is the rest of the sorted listing |
| CursorWalk.WalkShowsPrefix | src/routes/ngos.ts:236-241 | a client that follows id cursors is refused nowhere, sees a beginning of the listing, and the whole of it when its walk ends, within one request more than there are rows |
| Listings.CursorClauseIsStrictlyAfter | src/routes/ngos.ts:219-232 | in each of the three modes the cursor clause is exactly "strictly after" in the four-column ORDER BY |
| Listings.ModeIsStrictTotal | src/routes/ngos.ts:228-232 | each mode's ORDER BY is a strict total order on rows with distinct ids |
| Listings.NgoPagesListEverything | src/routes/ngos.ts:194-241 | in each mode a client that follows `nextCursor` through the query as written is shown the whole sorted, filtered directory in order |
| Listings.OrderIsOnColumns | src/routes/ngos.ts:228-232 | in each mode the order is the stated one on the rows' own columns: creation time either way, or the display name, or the name where there is none; equal rows go by id |
| Listings.WalkShowsThePublic | src/routes/ngos.ts:208-241 | what a client's walk shows is verified and matches the search, comes in that order, and is every such NGO when the walk ends |
| Listings.ClauseKeepsRowsAfterCursor | src/routes/ngos.ts:214-227 | the rows a page is cut from are those the WHERE clause as written keeps |
| Listings.CursorIdNamesItsRow | src/routes/ngos.ts:195-241 | asking with an id gives the page after that id's row, and its next cursor |
| Listings.RankingIsStrictTotal | src/routes/donors.ts:74-83 | the sort callback is a strict total order for both rankings in both directions |
| Listings.FindIndex | src/routes/donors.ts:85 | the first position with that id, or -1 when there is none |
| Listings.DonorPagesListEverything | src/routes/donors.ts:74-98 | no page of a walk is refused, it ends within one request more than there are donors, and shows the whole ranked list in order |
| Listings.RankingIsOnAmounts | src/routes/donors.ts:74-83 | one donor ranks before another iff its own committed, or withdrawn, amount is less, or greater, as asked, or equal and its id is less |
| Listings.WalkShowsTheRanking | src/routes/donors.ts:74-98 | what a client's walk shows comes in that order and is every donor when the walk ends |
| Totals.GroupsAddUp | src/routes/tokenTotals.ts:13-22 | grouping by any column neither loses nor repeats an amount |
| Totals.StatusBlindAgrees | src/services/impactService.ts:3-10 | with nothing left in cancelled rows the status-blind sum is the status-aware one |
| Totals.ReachableTotalsAgree | src/services/impactService.ts:3-10 | in every reachable state both totals agree, cancelled rows are empty and no amount is negative |
| Totals.CommittedTotalsByToken | src/routes/tokenTotals.ts:13-27 | one entry per token that occurs, sorted, each with its group's total |
| Totals.TokenTotalsAddUp | src/routes/tokenTotals.ts:13-27 | the entries are duplicate-free and sum to the committed total |
| Totals.SharesAddUp | src/routes/impact.ts:118-146 | the scaled shares of all n NGOs sum to more than 100% - n units and at most 100% |
| Totals.ShareIsPercentage | src/routes/impact.ts:118-146 | each share lies between 0 and 100% |
| Totals.ShareIsFloor | src/routes/impact.ts:141-146 | the scaled share is the whole quotient rounded down, and nothing on an empty platform |
| Totals.AllTotalsAgree | src/routes/donors.ts:57-73 | totals by token, by NGO and by donor, the platform total and the status-blind sum are one number in every reachable state |
| Csv.ReadsFieldBack | src/routes/donors.ts:173-187 | a field printed and read back is the guarded field, whatever characters it holds |
| Csv.PrintReadsBack | src/routes/donors.ts:255-266 | the reader undoes the printer on any records that have fields, the single empty field included |
| Csv.ExportReadsBack | src/routes/donors.ts:218-266 | the response reads back as the header and one record per stream, in order, and under each of the fourteen header names stands the stream's own column; the NGO's name is its display name unless that is absent or empty, and an absent value is an empty field |
| Csv.PlainFieldsStayBare | src/routes/donors.ts:183-186 | a field without quote, comma or line break is not quoted |
| Csv.EveryLineEnds | src/routes/donors.ts:255-266 | the response ends with a line end |
| Csv.GuardChangesOnlyFormulas | src/routes/donors.ts:178-181 | a field changes iff it starts with one of the six characters, and then only by the added quote |
| WorkerPool.MapsEachItemOnce | src/scripts/reconcileVerification.ts:116-134 | under every interleaving no item is mapped twice, result i is item i's, the limit holds, and a finished pool has mapped all |
| WorkerPool.SurvivorsFinishTheRest | src/scripts/reconcileVerification.ts:124-131 | if some calls throw, one worker that finishes is enough for every other item |
| WorkerPool.UnfinishedPoolGoesOn | src/scripts/reconcileVerification.ts:125-130 | a worker that has neither finished nor thrown always has an enabled turn |
| WorkerPool.RunsEnd | src/scripts/reconcileVerification.ts:125-130 | every interleaving ends after at most two turns an item and one a worker |
| WorkerPool.StepMakesProgress | src/scripts/reconcileVerification.ts:126-129 | every turn lowers a measure, so every interleaving ends |
| WorkerPool.SharedMap.TakeTurn | src/scripts/reconcileVerification.ts:126-127 | test and increment on the shared counter are the pool's take step |
| WorkerPool.SharedMap.SettleTurn | src/scripts/reconcileVerification.ts:128 | storing the awaited result is the pool's settle step |
| Reconcile.FinishedRunReportsAll | src/scripts/reconcileVerification.ts:80-114 | a finished run reports exactly the NGOs whose flag differs from the contract's, in table order, each with the table's flag and the contract's; with fix each row ends with the contract's flag where the contract knows the owner, and is otherwise as it was |
| Reconcile.SecondRunIsClean | src/scripts/reconcileVerification.ts:100-113 | after a finished fix run and with the contract unchanged a second run reports nothing |

## Left out

- Update in place of several requests at once: intake, the lock protocol and the worker pool run as state machines over single statements; their classes run one statement at a time.
- Notifications.NotificationService.NotifyWebhook: channels are posted to one after the other, not concurrently; a channel touches only its own log row, so no claim is made about the order between channels.
- NotificationRuns.PostsStopAtFirstSuccess: for sequential calls with fixed targets; concurrent calls for one event id are not modelled.
- Notifications: email, metrics, HMAC headers, time-outs, rows without an event id and the undeclared `deliveryId`; the webhook outbox with five attempts is not part of this model because its code is not in the repository.
- Listings.NgoPagesListEverything: for a directory that does not change between the pages.
- DeadLetterPaging.WalkMissesNothing: for walks whose cursor rows are not deleted.
- Totals.SharesAddUp: the quotient in scaled integers; the floating-point division after it is not modelled.
- DeadLetters.DeadLetterTable.Record: the stored topic, value and transaction hash, and decoding an event from them; a replayed event is given with its message.
- LockProtocol.StopIsFinal: the worker's side of a stop; a session whose connection failed first may linger at the server (`StopFreesLock` says when not). A stop whose unlock query fails rejects after dropping the handle; the model lets it resolve.
- LockProtocol.WorkersAreOneProcess: on positions; the tables and histories of several workers are not in one model with the lock.
- AuditReading.RowsCountCommits: an audit row carries no event id, so two events with the same ledger, transaction and payload share one count.
- LockLoss.StaleIff: for a fixed chain, and given a position ahead of everything handled so far.
- The error classifier by message text, the back-off delay, the escalation counter, metrics and logging.
- `topup` and `ratemod` events, which the code ignores: for streams with them there is no claim of agreement with the chain.
- IntakeSafety.ExpiredTokenIsRefused: expiry is decided at the lookup, as in the code; a token looked up in time may be redeemed a moment after it expires.
- Wall-clock columns of the stream, NGO and donor tables.
- Application fields other than owner, review and verification; clocks that run backwards.
- `GET /ngos/all`, whose order by creation time alone is not total; `src/routes/streams.ts`, the PATCH of a display name, seeding and migrations.
- HTTP, schemas, rate limits, admin signatures and Stellar SDK encoding.
