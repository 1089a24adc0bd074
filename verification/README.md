# GTX Broker and Second Shift, verified

A Dafny model of the parts of the repository whose safety rests on several functions at
once, and on where a crash, an error or another writer can cut in.

- **Scheduler** (`SchedulerState`, `Scheduler`, `EventReplay`, `ReadyAudit`,
  `SqlInterleaving`, `TaskSelection`). Task rows, attempts, events, controls and control
  events as a class whose methods are transactions, or statements that a crash or an error can
  cut short; runs of their calls against the event log; then the same methods taken apart
  into SQL statements that any number of callers interleave.
- **Storage and daemon** (`Machines`, `Storage`, `RecoveryRules`, `Daemon`). The input of a
  task moves between three directories while its row moves between states. The machine
  may lose power before any durable write and any operation may fail; each method
  promises its invariant for whatever it leaves behind, so the postconditions speak about
  every crash point. Restart recovery, dispatch, operator actions in between, and whole
  lives of restarts are methods over the two stores.
- **Backlog** (`BacklogRules`, `Backlog`). The adapter's queue, phase records and ledger,
  with workers, tests, reviewers and verifiers as oracles whose answers are logged.
- **Broker and dispatcher** (`Classifications`, `EscalationPolicy`, `GtxBroker`,
  `Dispatcher`, `ThreeBooks`). The escalation tree, the bounded history, and the three
  books that count attempts and failures.
- **Second-shift state** (`StateFile`, `FailureLedger`, `PoolRecovery`). The locked state
  file under interleaving, failure streaks and quarantine, and staged pool recovery.

Time is a number, JSON and SQL are maps and sequences, and every result of a handler,
worker, reviewer, keyword search or file system is an arbitrary input.

## What the proofs found

- A crash in `claim_for_processing` between the move and the metadata write
  (gtx_broker/scheduler/storage.py:254-263) leaves the input in processing, marked accepted:
  `ClaimCanTear`. Recovery takes it to be back in incoming and never repairs it:
  `TornInputIsNeverRepaired`. It is the only state an error-free restart leaves unsettled, as
  long as no earlier restart came up in spite of an error: `LivesThenRestart`.
- A recovery that goes on after an error can leave a waiting input displaced. While its task is
  queued no later recovery puts the input back (`FailedRecoveryDisplaces`); a dispatch that
  finds nothing to claim does, with the recovery after it (`DispatchFreesDisplaced`).
- `complete_task` writes the row before the attempts, in autocommit
  (gtx_broker/scheduler/scheduler.py:927-938). Cut short in between, a success has its result on
  no attempt for good: `LostResultIsNotRecovered`, `LivesCarry`. The result is on the attempt
  exactly when the attempt was closed: `ResultOnAttemptExactly`.
- A database error that escapes from the closing call re-enters the failure branch of dispatch
  (gtx_broker/daemon.py:550-558), which fails a task whose input is filed as succeeded. Only such
  an error does: `OutcomeIsFinal`, `Escaped`.
- The unguarded updates of the requeue and retry methods can put a finished task back in the
  queue: `StaleRequeueRevivesFinishedTask`. A terminal task keeps its state exactly when none of
  them lands stale with another state: `TerminalStaysExactly`.
- `claim_task` commits before it logs (gtx_broker/scheduler/scheduler.py:647-650), and the other
  transactions swallow an error of the event insert (gtx_broker/scheduler/scheduler.py:712-724), so
  a moved row can lack its event: `ClaimWithoutItsEvent`. Log, row and attempts agree exactly when
  they landed together or none did (`CutShortAgreesExactly`), over whole runs exactly for the tasks
  none of whose own calls was cut short (`HistoryAgreesExactly`, `Serve`). The next logged change
  makes the log illegal for good: `LostEventIsNotRepaired`, `BrokenLogStaysBroken`. Open attempts
  left behind are mended by the next change that ends attempts: `WholeAgreesExactly`.
- Cancelling the last holder of the P40, like any transition but complete, retry and requeue of a
  claim, leaves the planning session without its readiness event: `CancelledHolderIsNotAnnounced`.
  Those three and the switch itself, done in full, always record it: `ReadinessIsRecorded`.
- That every input is in one directory rests on ids being new: `StageInput`.
- Nightly maintenance tasks are admitted in no window: `NeverAdmittedExactlyNightlyMaintenance`.
- Under direct escalation some selection after the third attempt is not codex exactly when a
  result from the third on is a substantive failure with a repeated-error or solves-test
  trigger: `CodexAfterThreeExactly`. Such results select the P40 without limit:
  `RepeatedErrorsHaveNoLimit`. How often it is selected: `P40SelectionsExactly`.
- A goal routed again after another task became the broker's current one starts over at attempt
  one while ledger and counter go on (`ReroutingDisagrees`), and a transaction that fails behind
  the broker leaves the broker ahead (`FailedTransactionDisagrees`).
- Goals share a failure counter exactly when the goal or its class has a colon:
  `SharedCounterExactly`.
- Recovery takes codex out again only if the pool has dropped to two twice before it first rises
  to four: `ActionsExactly`, `MembershipExactly`.
- A worker or reviewer that reports a failure under the classification `success`
  (second_shift/backlog_execution_adapter.py:998-1021; it is the default of `WorkerResult`) puts a success
  attempt in the ledger, marked rejected. Exactly then an unearned success is recorded, and it never
  counts towards a completion: `SuccessIsEarnedExactly`, `CompletedWasVerified`.
- A completion is taken back exactly when its final verification is still pending and now
  rejects: `RunNext`. A crash between second_shift/backlog_execution_adapter.py:703 and :705 leaves
  that state: `CutSettlementReopens`. The item was verified when it was completed all the same:
  `CompletedWasVerified`.

Read in the source, and followed by the model:

- Recovery looks only at tasks with a durable input (gtx_broker/daemon.py:113): a claimed or
  running task without one stays as it was.
- A result is recovered for succeeded tasks only; a failed one is closed after a restart without
  its payload (gtx_broker/daemon.py:175).
- The `worker_failed` events of a refused start are rolled back with its transaction
  (gtx_broker/scheduler/scheduler.py:811-845).
- The failure ledger's own enumeration lacks `review_unavailable`, which the state file lists as
  an operational failure (second_shift/ledger.py:13-25, second_shift/state.py:26-30).

## Model

| member | source | states |
|---|---|---|
| `SchedulerService.Scheduler.AddTask` | gtx_broker/scheduler/scheduler.py:443-527 | a new task enters queued with one creation event; a known idempotency key or id changes nothing; cut short, the row may lack its event |
| `SchedulerService.Scheduler.ClaimTask` | gtx_broker/scheduler/scheduler.py:586-657 | claims exactly a queued task while scheduling is on and, during planning, its row's own fields do not make it P40 work; otherwise the tables are unchanged; the event is logged after the commit, so a crash or an error may lose it and the claim still succeed |
| `SchedulerService.Scheduler.StartTask` | gtx_broker/scheduler/scheduler.py:726-899 | one transaction: starts exactly a claimed task on a known, capable worker on whose exclusive resource no running task has or had an attempt, and never a P40 worker during planning; opens one attempt; only an error in logging may leave the event out, and goes unnoticed |
| `SchedulerService.Scheduler.CompleteTask` | gtx_broker/scheduler/scheduler.py:901-954 | closes a running task, then all its attempts with the result, then records readiness if that drained the P40; a crash or an error leaves some of these writes, the row before the attempts |
| `SchedulerService.Scheduler.RetryTask` | gtx_broker/scheduler/scheduler.py:1286-1342 | attempts closed, then running to retry_wait with its retry time, then readiness recorded; a crash or an error leaves some of these writes |
| `SchedulerService.Scheduler.CancelTask` | gtx_broker/scheduler/scheduler.py:1344-1396 | one transaction: cancels exactly accepted, queued and claimed tasks; only an error in logging may leave the event out, and goes unnoticed |
| `SchedulerService.Scheduler.FailClaimedTask` | gtx_broker/scheduler/scheduler.py:1398-1430 | one transaction: rejects exactly a claimed task; only an error in logging may leave the event out, and goes unnoticed |
| `SchedulerService.Scheduler.RequeueClaimedToRetryWait` | gtx_broker/scheduler/scheduler.py:1432-1472 | claimed to retry_wait, readiness recorded |
| `SchedulerService.Scheduler.RequeueRetryWait` | gtx_broker/scheduler/scheduler.py:1474-1519 | requeues exactly a waiting task whose retry time has come |
| `SchedulerService.Scheduler.RequeueAwaitingReview` | gtx_broker/scheduler/scheduler.py:1521-1559 | awaiting_review back to queued |
| `SchedulerService.Scheduler.ApproveAwaitingReview` | gtx_broker/scheduler/scheduler.py:1561-1601 | approves exactly a reviewed task without a manifest |
| `SchedulerService.Scheduler.TransitionAwaitingReviewToFailed` | gtx_broker/scheduler/scheduler.py:1603-1643 | awaiting_review to failed_terminal |
| `SchedulerService.Scheduler.TransitionRunningToRetryWait` | gtx_broker/scheduler/scheduler.py:1645-1701 | attempts closed with the result, then running to retry_wait, in this order at every crash and error; leaves the readiness audit alone |
| `SchedulerService.Scheduler.TransitionRunningToAwaitingReview` | gtx_broker/scheduler/scheduler.py:1703-1745 | attempts closed without a result, then running to awaiting_review; the closing may fail unnoticed |
| `SchedulerService.Scheduler.SetControl` | gtx_broker/scheduler/scheduler.py:365-415 | sets the control, logs a change once, and logs readiness when planning comes on over a free P40 |
| `SchedulerService.Scheduler.RecordP40ReadyIfNeeded` | gtx_broker/scheduler/scheduler.py:328-363 | adds at most the one missing readiness event of the planning session |
| `SchedulerState.BusyExactlyWhenHeld` | gtx_broker/scheduler/scheduler.py:253-273 | the two busy scans find something exactly when some task holds the P40: running with an open P40 attempt, or claimed and needing it |
| `SchedulerState.RequiresExactlyP40Work` | gtx_broker/scheduler/scheduler.py:311-326 | the P40 is kept, during planning, for exactly this work: no review tag or reviewer, and a requested p40 profile, or no profile and vision work or coding work that is not nightly, batch or maintenance |
| `SchedulerState.TransitionExactly` | gtx_broker/scheduler/scheduler.py:927-944 | a whole transition writes only its task's state, and retry time if it sets one, ends only that task's open attempts, with the result, starts at most one attempt and logs one event |
| `SchedulerService.P40StateExactly` | gtx_broker/scheduler/scheduler.py:275-283 | the control state is ready or draining during planning, available or busy otherwise, by whether some task holds the P40 |
| `SchedulerService.Scheduler.Serve` | gtx_broker/scheduler/scheduler.py:96-1745 | any number of calls on any tasks with crashes, errors and restarts is a run of changes made in full, in part or not at all, so a task's log, row and attempts agree throughout exactly when none of its own calls was cut short; without crash and error none is |
| `EventReplay.WholeKeepsHistory` | gtx_broker/scheduler/scheduler.py:438-441 | every admission and every transition along the table, made in full, keeps event log, rows and attempts in agreement: replay gives the state, a task is running exactly when it has one open attempt |
| `EventReplay.WholeAgreesExactly` | gtx_broker/scheduler/scheduler.py:417-436 | from any tables: after a change in full its task agrees exactly when log and row agreed before, and so did the attempts unless the change ends them all |
| `EventReplay.CutShortAgreesExactly` | gtx_broker/scheduler/scheduler.py:417-436 | a change cut short anywhere leaves its task in agreement exactly when row, attempts and event landed together or none did |
| `EventReplay.OthersKeepAgreement` | gtx_broker/scheduler/scheduler.py:417-436 | whatever part of a change landed, every other task agrees exactly if it did before |
| `EventReplay.ClaimWithoutItsEvent` | gtx_broker/scheduler/scheduler.py:647-650 | the commit of a claim without the event after it breaks the agreement of every agreeing history, and the start that follows makes the log illegal for good |
| `EventReplay.LostEventIsNotRepaired` | gtx_broker/scheduler/scheduler.py:712-724 | where replay is not the row's state, the next logged change of the task makes its log illegal, whatever is logged later |
| `EventReplay.HistoryAgreesExactly` | gtx_broker/scheduler/scheduler.py:417-441 | over any run of calls on any tasks, cut short anywhere, a task agrees at every point exactly when no call on this task was cut short |
| `EventReplay.BrokenLogStaysBroken` | gtx_broker/scheduler/scheduler.py:417-436 | once the log of a task is illegal no run of calls makes it legal |
| `EventReplay.ConsecutiveEventsFollowTheTable` | gtx_broker/scheduler/scheduler.py:64-74 | two consecutive events of a task join up along an edge of the transition table |
| `EventReplay.FirstEventIsCreation` | gtx_broker/scheduler/scheduler.py:506-521 | the first event of a task has no previous state and puts it in the queue |
| `EventReplay.ArrivalsExactly` | gtx_broker/scheduler/scheduler.py:64-74 | for every state, which states the event before may have left the task in: running only after claimed, claimed only after queued, and so on |
| `EventReplay.TerminalIsAbsorbing` | gtx_broker/scheduler/scheduler.py:64-74 | once replay reaches a terminal state no further event of the task exists |
| `ReadyAudit.OneReadinessPerSession` | gtx_broker/scheduler/scheduler.py:336-357 | before every readiness event planning was switched on, and between two of them it was switched on again |
| `ReadyAudit.ReadinessIsTruthful` | gtx_broker/scheduler/scheduler.py:334-335 | one call writes a readiness event only while planning is on and nothing holds the P40 |
| `ReadyAudit.SwitchExactly` | gtx_broker/scheduler/scheduler.py:365-408 | switching changes that control alone and logs a change exactly once, followed by readiness exactly when planning comes on and no task holds the P40 |
| `ReadyAudit.ReadinessIsRecorded` | gtx_broker/scheduler/scheduler.py:328-363 | whoever records readiness with planning on and no holder left, or switches planning on without one, leaves readiness logged since planning last came on |
| `ReadyAudit.CancelledHolderIsNotAnnounced` | gtx_broker/scheduler/scheduler.py:1344-1396 | cancelling the last holder leaves readiness unrecorded although nothing holds the P40 |
| `SqlInterleaving.ReadinessIsTruthfulAlways` | gtx_broker/scheduler/scheduler.py:328-363 | under every interleaving a readiness event is only ever written while planning is on and nothing holds the P40 |
| `SqlInterleaving.CompletionAddsUp` | gtx_broker/scheduler/scheduler.py:901-954 | with nobody in between, the statements of a completion add up to the whole call |
| `SqlInterleaving.UnguardedExactly` | gtx_broker/scheduler/scheduler.py:1432-1745 | which updates take effect on whatever state the row has by then |
| `SqlInterleaving.ClaimAddsUp` | gtx_broker/scheduler/scheduler.py:586-657 | so do those of a claim |
| `SqlInterleaving.DecisionAddsUp` | gtx_broker/scheduler/scheduler.py:1521-1643 | and those of the decisions about a reviewed task |
| `SqlInterleaving.StartAddsUp` | gtx_broker/scheduler/scheduler.py:726-899 | a permitted start is its whole call |
| `SqlInterleaving.TransactionsAreCalls` | gtx_broker/scheduler/scheduler.py:1344-1430 | a cancellation and a rejection are their whole calls, and nothing in any other state |
| `SqlInterleaving.ExclusiveAlways` | gtx_broker/scheduler/scheduler.py:752-884 | whatever statements of whatever callers interleave, at most one attempt of a running task is open on any one exclusive resource |
| `SqlInterleaving.HoldersOnlyShrink` | gtx_broker/scheduler/scheduler.py:799-808 | while planning stays on no step adds a P40 holder, whatever was claimed before |
| `SqlInterleaving.ReadyStaysReady` | gtx_broker/scheduler/scheduler.py:253-291 | once the three reads of the control state, with anything in between, have answered ready, the P40 is ready and stays so until planning is switched off |
| `SqlInterleaving.AuditAlways` | gtx_broker/scheduler/scheduler.py:365-415 | the readiness audit stays paced under every interleaving |
| `SqlInterleaving.FreshReadsKeepTerminalStates` | gtx_broker/scheduler/scheduler.py:1474-1519 | if every unguarded update lands on the state it read, terminal states are absorbing under every interleaving |
| `SqlInterleaving.StaleRequeueRevivesFinishedTask` | gtx_broker/scheduler/scheduler.py:1500-1512 | a concrete interleaving in which a stale requeue puts a succeeded task back in the queue |
| `SqlInterleaving.TerminalChangesExactly` | gtx_broker/scheduler/scheduler.py:1456-1461 | of all the steps there are, exactly a stale unguarded update that writes another state changes a terminal task |
| `SqlInterleaving.TerminalStaysExactly` | gtx_broker/scheduler/scheduler.py:1474-1519 | over any run a terminal task keeps its state throughout exactly when no step of the run is such an update |
| `TaskSelection.GetPendingTasks` | gtx_broker/scheduler/scheduler.py:1117-1211 | returns a sorted prefix of the admissible tasks: admissible, in the window's order, up to the limit, nothing left out before anything returned |
| `TaskSelection.WindowExactly` | gtx_broker/scheduler/policies.py:71-104 | which window is open, by hour, night mode, planning and whether a vision task is queued, claimed or running |
| `TaskSelection.KeptOutExactly` | gtx_broker/scheduler/scheduler.py:1138-1201 | the work each window keeps out, by mode and schedule |
| `TaskSelection.OrderExactly` | gtx_broker/scheduler/scheduler.py:1138-1211 | what is returned earlier against what is returned later or left out: immediate work, kind of work, priority and age, in the window's order |
| `TaskSelection.ImmediateAlwaysAdmitted` | gtx_broker/scheduler/policies.py:71-104 | an immediate task is admissible in every window exactly when it may be claimed |
| `TaskSelection.BatchWaitsForVision` | gtx_broker/scheduler/scheduler.py:1138-1178 | with planning off no batch-only task is returned while a vision task is queued, claimed or running |
| `TaskSelection.SelectedIsClaimable` | gtx_broker/scheduler/scheduler.py:617-626 | every returned task is claimable from the same state, and none is P40 work during planning |
| `TaskSelection.NextTaskExistsExactlyWhenAdmissible` | gtx_broker/scheduler/scheduler.py:1015-1026 | get_next_task offers nothing exactly when nothing is admissible |
| `TaskSelection.NeverAdmittedExactlyNightlyMaintenance` | gtx_broker/scheduler/scheduler.py:1165-1201 | no window ever admits a task exactly when it is maintenance work scheduled nightly |
| `StorageService.StorageContract.StageInput` | gtx_broker/scheduler/storage.py:160-226 | a staged input appears whole in incoming or not at all, never over another there; every input stays in one directory exactly if the id was in no other |
| `StorageService.StorageContract.ClaimForProcessing` | gtx_broker/scheduler/storage.py:228-267 | leaves one of the named crash stages, the last one when it succeeds; not available exactly when the input is not accepted in incoming; a success has it in processing and marked, with its metadata otherwise unchanged |
| `StorageService.StorageContract.CompleteTask` | gtx_broker/scheduler/storage.py:269-335 | records the outcome before the move and finishes a move already made; every crash leaves one of the named stages; done, the input is processed with the outcome and result given, or those it had |
| `StorageService.StorageContract.RequeueForRetry` | gtx_broker/scheduler/storage.py:388-420 | moves an input back or finishes that move; every crash leaves one of the named stages; done, it is in incoming, accepted, marked for retry, its result unchanged |
| `StorageService.StorageContract.CleanupOldTasks` | gtx_broker/scheduler/storage.py:446-505 | removes exactly the expired processed or rejected inputs and the stale staging directories, never looks into processing, and counts what it removed |
| `StorageService.RetainedExactly` | gtx_broker/scheduler/storage.py:446-505 | of a directory exactly the expired inputs that are neither accepted nor in processing are removed, the rest is untouched |
| `RecoveryRules.RecoverySettlesExactly` | gtx_broker/daemon.py:111-178 | recovery brings an input to its documented resting place exactly when its claim was not torn and, if queued, it was not displaced |
| `RecoveryRules.RecoveredIsPlaced` | gtx_broker/daemon.py:111-158 | after a clean recovery everything waiting is in incoming and accepted, and everything known is settled except torn claims |
| `RecoveryRules.RecoveredIsSound` | gtx_broker/daemon.py:111-178 | recovery keeps row and input consistent |
| `RecoveryRules.RecoveryPutsRight` | gtx_broker/daemon.py:111-178 | a clean recovery state by state: a running task succeeds, waits for review or fails exactly as its input's outcome says, with the result on a success; an interrupted one without outcome waits again with its input in incoming unless its claim was torn; every other task keeps its state |
| `RecoveryRules.RecoveryIsIdempotent` | gtx_broker/daemon.py:111-158 | recovering again changes nothing, for every pair of row and input |
| `RecoveryRules.TornInputIsNeverRepaired` | gtx_broker/scheduler/storage.py:252-263 | an input moved but not yet marked stays in processing through every recovery |
| `RecoveryRules.SoundFollowsOutcome` | gtx_broker/daemon.py:167-178 | with an outcome recorded the task is still running or in the matching state, failed after an escaped error, or, after a review, where the operator decided and nowhere else; a success has its result on its attempt unless the attempt was left open |
| `RecoveryRules.ResultOnAttemptExactly` | gtx_broker/scheduler/scheduler.py:927-938 | a succeeded task has the recorded result on its attempt exactly when the attempt is closed |
| `RecoveryRules.LostResultIsNotRecovered` | gtx_broker/scheduler/scheduler.py:927-938 | a success cut short between its row and its attempt is consistent and settled, has its result on no attempt, and recovery leaves it so |
| `RecoveryRules.ClaimCanTear` | gtx_broker/scheduler/storage.py:252-263 | a storage claim that stops after its move leaves a torn input that recovery does not settle |
| `RecoveryRules.FailedRecoveryDisplaces` | gtx_broker/daemon.py:142-152 | a recovery that moves the task but not its input leaves a displaced input; while its task is queued no recovery touches it |
| `RecoveryRules.DispatchFreesDisplaced` | gtx_broker/daemon.py:330-337 | a dispatch that finds nothing to claim sends such a task back to wait, and the next recovery settles it |
| `RecoveryRules.RequeueIsSafe` | gtx_broker/scheduler/storage.py:388-420 | every stage of a requeue fits the task and keeps a recorded outcome |
| `RecoveryRules.FilingIsSafe` | gtx_broker/scheduler/storage.py:269-335 | every stage of a completion fits a running task and keeps a recorded outcome |
| `RecoveryRules.ShelvingIsSafe` | gtx_broker/daemon.py:154-158 | every stage of shelving an ended task's input fits the task |
| `RecoveryRules.ClaimingIsSafe` | gtx_broker/scheduler/storage.py:252-263 | every stage of a storage claim fits a claimed or just cancelled task |
| `DaemonService.SchedulerDaemon.RecoverOne` | gtx_broker/daemon.py:111-158 | without errors one input is put right, state by state; with a crash or an error at any write both stores stay consistent |
| `DaemonService.SchedulerDaemon.Schedule` | gtx_broker/scheduler/scheduler.py:901-1745 | a scheduler call leaves its task in one of the states between its writes, and no other task changed; without crash or error all or nothing |
| `DaemonService.SchedulerDaemon.RecoverInterruptedTasks` | gtx_broker/daemon.py:111-158 | the same for all inputs at once |
| `DaemonService.SchedulerDaemon.StartUp` | gtx_broker/daemon.py:111-178 | an error-free restart puts every input right, state by state; if no restart before came up in spite of an error, known inputs are then settled except exactly those whose claim was torn |
| `DaemonService.SchedulerDaemon.TransitionToRetry` | gtx_broker/daemon.py:160-165 | a running or claimed task goes to retry_wait, its input untouched, or nothing changes |
| `DaemonService.SchedulerDaemon.FinishRecoveredTask` | gtx_broker/daemon.py:167-178 | a running task with a filed input becomes succeeded, awaiting_review or failed_terminal as its recorded outcome says |
| `DaemonService.ClaimTakesNoWorker` | gtx_broker/scheduler/scheduler.py:752-884 | a claim leaves every worker as free as it was |
| `DaemonService.SchedulerDaemon.ClaimStagedInput` | gtx_broker/daemon.py:251-270 | a claimed task has its input in processing and marked, or goes back to wait; a raised claim leaves both for recovery |
| `DaemonService.SchedulerDaemon.GiveBack` | gtx_broker/daemon.py:340-363 | input first, then task; without errors both rest where a retry finds them |
| `DaemonService.SchedulerDaemon.DispatchClaimed` | gtx_broker/daemon.py:327-558 | from a claimed task to one left as its fate says; undisturbed, its fate is no input, not started, no handler or run exactly by input, worker and handler |
| `DaemonService.SchedulerDaemon.StartClaimed` | gtx_broker/daemon.py:337-372 | from a claimed input to a started worker or back; undisturbed, started exactly when the selected worker may start |
| `DaemonService.SchedulerDaemon.FileInput` | gtx_broker/daemon.py:279-287 | a finished outcome is filed with the input, and kept once recorded |
| `DaemonService.SchedulerDaemon.RequeueKnown` | gtx_broker/daemon.py:272-277 | an unfinished input goes back to incoming, or stays on one of the named stages |
| `DaemonService.SchedulerDaemon.RunHandler` | gtx_broker/daemon.py:398-429 | the handler starts once or twice, on the input in hand only, and never after an outcome is recorded |
| `DaemonService.SchedulerDaemon.Close` | gtx_broker/daemon.py:432-469 | outcome first, then task; without errors both show that outcome; an error of the closing call escapes only with the input filed |
| `DaemonService.SchedulerDaemon.RetryLater` | gtx_broker/daemon.py:471-510 | input back first, then task; without errors both wait for a retry |
| `DaemonService.SchedulerDaemon.Execute` | gtx_broker/daemon.py:374-558 | the handler runs exactly if there is one; without errors success, review, retry and failure leave both stores as named by state and directory; an error that escapes the closing call re-enters the failure branch |
| `DaemonService.SchedulerDaemon.Escaped` | gtx_broker/daemon.py:550-558 | the failure branch changes no filed outcome, and fails the task if it is still running, which is recorded as overruling it |
| `DaemonService.SchedulerDaemon.DispatchTask` | gtx_broker/daemon.py:289-558 | consistent at every write; without errors both stores are left case by case as the handler's result says; undisturbed, the task is claimed and its handler run exactly when claim, manifest, input, worker and handler permit |
| `DaemonService.SchedulerDaemon.Lives` | gtx_broker/daemon.py:189-240 | over any number of restarts, dispatches, crashes, errors and operator actions the stores stay consistent and no recorded outcome is lost; without errors nothing is overruled, and something waiting may be displaced only if one of the logged restarts came up in spite of an error |
| `DaemonService.SchedulerDaemon.LivesThenRestart` | gtx_broker/daemon.py:111-178 | after any such lives with no restart that came up in spite of an error, an error-free restart leaves every known input settled, except exactly the torn ones |
| `DaemonService.SchedulerDaemon.LivesCarry` | gtx_broker/daemon.py:189-240 | over any lives no known input is lost, and a task that is over with its input filed never changes again |
| `DaemonService.SchedulerDaemon.OutcomeIsFinal` | gtx_broker/daemon.py:124-139 | once an outcome is recorded the handler never starts again, outcome and result of the input stay, and the task only moves to the matching state, or to failed after an escaped error; a reviewed task succeeds only by the operator's approval |
| `DaemonService.ClosingConcludes` | gtx_broker/daemon.py:167-178 | the call recovery makes for an outcome is the one dispatch would have made |
| `DaemonService.PartlySeen` | gtx_broker/scheduler/scheduler.py:901-1745 | whatever writes of a call have landed, its task shows one of the states between them |
| `DaemonService.OthersUnseen` | gtx_broker/scheduler/scheduler.py:901-1745 | and no other task shows anything |
| `BacklogExecution.BacklogAdapter.SelectNextItem` | second_shift/backlog_runner.py:99-104 | the first queued item unless one is in progress |
| `BacklogExecution.BacklogAdapter.ClaimNextItem` | second_shift/backlog_runner.py:174-213 | claims the first queued item, and only when no other claimed item is queued, in progress or pending; claims nothing only if nothing can be claimed |
| `BacklogExecution.BacklogAdapter.SetStatus` | second_shift/backlog_runner.py:106-156 | writes the caller's snapshot back with one status changed; at most that item changes |
| `BacklogExecution.BacklogAdapter.Checkpoint` | second_shift/backlog_execution_adapter.py:575-580 | replaces the record of one item, or nothing |
| `BacklogExecution.BacklogAdapter.RecordAttempt` | second_shift/dispatch.py:431-566 | appends the dispatcher's ledger entry, which its gates must have earned, or nothing; may raise either way |
| `BacklogExecution.BacklogAdapter.ResumeFinalVerificationPending` | second_shift/backlog_execution_adapter.py:663-706 | asks once; a decisive verdict is booked and settles the item accordingly, any other leaves status, record and ledger as they were |
| `BacklogExecution.BacklogAdapter.ResumeReviewPending` | second_shift/backlog_execution_adapter.py:708-789 | an unavailable review stays pending, a rejection is booked and settled, a pass is booked and goes on to final verification, which settles or is pending in its turn |
| `BacklogExecution.BacklogAdapter.VerifyReviewed` | second_shift/backlog_execution_adapter.py:760-789 | a decisive verdict settles; any other restores the pending record |
| `BacklogExecution.BacklogAdapter.FinishVerification` | second_shift/backlog_execution_adapter.py:689-706 | an accepted verification is in the ledger before the item is completed |
| `BacklogExecution.BacklogAdapter.ExecuteClaimed` | second_shift/backlog_execution_adapter.py:911-1055 | by worker, tests, review and final verdict: the item is completed, queued, blocked or preserved with the right gate pending, the ledger gets exactly the entries this calls for, and exactly the gates it calls for are asked, in order |
| `BacklogRules.SuccessIsEarnedExactly` | second_shift/backlog_execution_adapter.py:998-1021 | a candidate goes on to its final verification exactly when worker, tests and review passed; it is recorded as a success also when a worker or reviewer reports a failure under that name, and then as rejected |
| `BacklogRules.AllPassedExactly` | second_shift/backlog_execution_adapter.py:913-1015 | all gates stand exactly when worker, tests, review and final verification said yes in this order and nothing after any of them asked again or changed the worktree |
| `BacklogRules.GateExactly` | second_shift/backlog_execution_adapter.py:913-1015 | a gate stands exactly while the last answer at or before it was its own and good |
| `BacklogExecution.BacklogAdapter.RunNextOnce` | second_shift/backlog_execution_adapter.py:896-913 | claims in turn, and does claim when it can and nothing fails |
| `BacklogExecution.BacklogAdapter.RunNext` | second_shift/backlog_execution_adapter.py:806-816 | pending gates first, without claiming; otherwise claims in turn; consistent at every crash and exception; a completed item without a pending gate never changes, and a completion is taken back exactly when a pending final verification rejects |
| `BacklogExecution.BacklogAdapter.HandlePendingException` | second_shift/backlog_execution_adapter.py:818-841 | a pending item is left exactly as it was; otherwise no item is left in progress |
| `BacklogExecution.BacklogAdapter.HandleUnexpectedException` | second_shift/backlog_execution_adapter.py:843-894 | the item in progress is released to the queue or blocked; without one the exception goes on |
| `BacklogExecution.BacklogAdapter.InspectInProgress` | second_shift/backlog_execution_adapter.py:589-611 | an item left in progress afterwards is still executing |
| `BacklogExecution.BacklogAdapter.Lives` | second_shift/backlog_execution_adapter.py:806-816 | the invariant holds at every write of any number of calls and restarts, over which a completed item without a pending gate never changes |
| `BacklogExecution.BacklogAdapter.CompletedWasVerified` | second_shift/backlog_execution_adapter.py:663-706 | an item the adapter completed has a success attempt in the ledger, written when worker, tests and review had passed, and later Codex's accepted final verification, written when one artifact had passed all four in a row |
| `BacklogExecution.BacklogAdapter.OneAtATime` | second_shift/backlog_execution_adapter.py:791-804 | never two items in progress or pending, and nothing queued before the one that is |
| `BacklogRules.RequestsEnterAsMeant` | second_shift/backlog_execution_adapter.py:621-635 | a candidate's success is a success entry and never an acceptance; a passed final verification is accepted by the dispatcher's own rules |
| `BacklogRules.ProvenMeans` | second_shift/backlog_execution_adapter.py:739-788 | an item is proven exactly when its ledger holds a success attempt and, later, an accepted final verification by Codex |
| `BacklogRules.CutSettlementReopens` | second_shift/backlog_execution_adapter.py:703-705 | between the queue's status and the phase an item shows completed with its gate pending, and may be sent back |
| `BacklogExecution.BacklogAdapter.RunWorker` | second_shift/backlog_execution_adapter.py:913-919 | stores whether the worker succeeded with changed files, and starts the gates over |
| `BacklogExecution.BacklogAdapter.RunTests` | second_shift/backlog_execution_adapter.py:921-923 | tests run for a successful worker only; their result is stored |
| `BacklogExecution.BacklogAdapter.SelfReview` | second_shift/backlog_execution_adapter.py:926-957 | a self-review that changed the worktree voids every gate |
| `BacklogExecution.BacklogAdapter.Review` | second_shift/backlog_execution_adapter.py:958-973 | the review's verdict is stored, and voids any earlier one |
| `BacklogExecution.BacklogAdapter.PreserveForReview` | second_shift/backlog_execution_adapter.py:975-996 | a good candidate without a review is blocked with the review pending |
| `BacklogExecution.BacklogAdapter.ConcludeCandidate` | second_shift/backlog_execution_adapter.py:1011-1055 | a reviewed candidate is completed or sent back by a decisive verdict, and otherwise blocked with the final verification pending |
| `BacklogExecution.BacklogAdapter.ConcludeFailure` | second_shift/backlog_execution_adapter.py:1035-1055 | a failed attempt is booked as rejected under its classification and goes back to the queue or is blocked |
| `EscalationPolicy.DecisionExactly` | gtx_broker/escalation_policy.py:116-403 | the whole policy, each of the five decisions and its target exactly, by classification, findings, attempt number, GTX failures and workflow |
| `EscalationPolicy.TriggerExactly` | gtx_broker/escalation_policy.py:250-302 | which findings ask for codex, for the P40, for neither though there are many, and for nothing |
| `EscalationPolicy.P40ExactlyWithinLimit` | gtx_broker/escalation_policy.py:116-187 | under direct escalation the P40 is next exactly for a failure within three attempts that no trigger takes elsewhere, or a repeated-error or solves-test trigger |
| `EscalationPolicy.LayeredLeavesP40Exactly` | gtx_broker/escalation_policy.py:304-403 | under layered review a failure goes to the second shift exactly on the attempt limit of operational failures, unrelated files, or three counted GTX failures |
| `GtxBroker.AttemptsCountUp` | gtx_broker/controller.py:220-275 | attempt numbers count up by one from routing and GTX failures stay zero |
| `GtxBroker.RecordedExactly` | gtx_broker/controller.py:220-265 | a recorded attempt adds one to the attempt number and, if it is a failure of the code, one to the count of the GTX or P40 worker selected; the policy's target for that number is next |
| `GtxBroker.CodexAfterThreeExactly` | gtx_broker/controller.py:193-275 | every selection after the third attempt is codex exactly when no result from the third on is a substantive failure with a repeated-error or solves-test trigger |
| `GtxBroker.P40SelectionsExactly` | gtx_broker/controller.py:193-275 | for every task the number of P40 selections is one for a first routing to it, one for each of the first two results that is a failure without trigger, and one for every repeated-error or solves-test trigger, whatever its number |
| `GtxBroker.P40ThreeAttemptsAtMost` | gtx_broker/controller.py:193-275 | under that condition the P40 is selected for three attempts at most |
| `GtxBroker.RepeatedErrorsHaveNoLimit` | gtx_broker/escalation_policy.py:326-335 | n reports of the same error select the P40 n + 1 times |
| `GtxBroker.LookupAgreesExactly` | gtx_broker/state.py:184-193 | lookup in the bounded history agrees with lookup in everything ever recorded exactly when the task is unknown or among the last hundred entries |
| `GtxBroker.WindowSlides` | gtx_broker/state.py:206-215 | appending to the bounded history gives the last hundred entries of the full one |
| `GtxBroker.WindowIsHundred` | gtx_broker/state.py:206-215 | the history kept is the last hundred states |
| `GtxBroker.NewestIsThere` | gtx_broker/state.py:184-193 | lookup finds the newest entry of the task exactly when it has one |
| `GtxBroker.GtxBrokerDirector.GetTaskState` | gtx_broker/state.py:184-193 | the newest state of the task, from current state or history |
| `GtxBroker.GtxBrokerDirector.Persist` | gtx_broker/state.py:195-215 | current state is the newest entry and the history the last hundred |
| `GtxBroker.GtxBrokerDirector.RouteRequest` | gtx_broker/controller.py:104-191 | a first routing starts the task at attempt one; one that reports an earlier attempt is decided by the escalation policy |
| `GtxBroker.GtxBrokerDirector.RecordAttemptResult` | gtx_broker/controller.py:193-295 | raises exactly when the task is outside the history window; otherwise one more entry, from the task's newest state |
| `CodingDispatcher.Dispatcher.Validate` | second_shift/dispatch.py:431-455 | refuses exactly the malformed requests and downgrades any acceptance that is not Codex's own final verification |
| `CodingDispatcher.AdmissibleExactly` | second_shift/dispatch.py:431-455 | the three kinds of attempts that are recorded: Codex's final verification, a Codex repair, and any other worker's candidate or repair that is reviewed where it has to be |
| `CodingDispatcher.DecidedExactly` | second_shift/dispatch.py:452-455 | only Codex's final verification is accepted; other acceptances are downgraded, all other decisions stay |
| `CodingDispatcher.EntrySaysWhatWasAsked` | second_shift/dispatch.py:524-550 | the ledger entry carries goal, class, model, classification, reviewer and role of the request |
| `CodingDispatcher.CopilotAfterExactly` | second_shift/dispatch.py:495-522 | Copilot is taken out exactly by its own attempt that reports exhausted credit, a missing endpoint or failed authentication, and no other model changes |
| `CodingDispatcher.CopilotAvailableExactly` | second_shift/dispatch.py:168-179 | Copilot is available exactly when the registry's first one is active with credit left |
| `CodingDispatcher.SecondaryExactly` | second_shift/dispatch.py:600-641 | who may take over from the P40: a usable model that is neither P40, Copilot nor Codex |
| `CodingDispatcher.PickedFailsLeast` | second_shift/dispatch.py:600-641 | whom routing picks has failed on the goal class at most as often as any other usable member, by the registry's own counts |
| `CodingDispatcher.Dispatcher.RecordAttemptResult` | second_shift/dispatch.py:388-566 | writes broker, counter and ledger together, or none of them when it raises, or the broker alone when the transaction behind it fails |
| `CodingDispatcher.Dispatcher.SelectSecondaryModel` | second_shift/dispatch.py:600-641 | a usable second-shift member with the fewest failures on the goal class; none exactly when there is none |
| `CodingDispatcher.Dispatcher.RouteCodingRequest` | second_shift/dispatch.py:215-386 | outside the broker flow: the P40 below three counted failures, then repair worker or least-failed member; counts nothing |
| `CodingDispatcher.Dispatcher.RouteGtxRequest` | second_shift/dispatch.py:246-289 | the broker's standing selection for its current task, a fresh routing for another, p40 when the broker fails |
| `ThreeBooks.BooksAlwaysHold` | second_shift/dispatch.py:478-566 | in every run attempts are numbered 1 to n, each counter equals the ledger's substantive P40 failures under its key, and only Codex's reviewed final verification is accepted |
| `ThreeBooks.ThreeBooksAgree` | second_shift/dispatch.py:457-566 | routed once and recorded under the selected model, a goal's broker attempt number is its ledger attempts plus one, and broker P40 failures, counter and ledger failures are equal |
| `ThreeBooks.RecordAgreesExactly` | gtx_broker/controller.py:226-236 | an attempt keeps the books in agreement exactly when a substantive failure is reported for the P40 just if the P40 was selected |
| `ThreeBooks.FirstRoutingAgrees` | second_shift/dispatch.py:263-283 | a fresh routing leaves the books in agreement exactly when the ledger has no attempt of the goal |
| `ThreeBooks.ReroutingDisagrees` | second_shift/dispatch.py:254-282 | routing a goal again after another task took over leaves the books apart |
| `ThreeBooks.KeyIsInjective` | second_shift/dispatch.py:310-310 | goal and class can be read back from the counter key when the class has no colon |
| `ThreeBooks.SharedCounterExactly` | second_shift/dispatch.py:487-487 | a goal and class share their counter with another pair exactly when one of them has a colon |
| `ThreeBooks.FailedTransactionDisagrees` | second_shift/dispatch.py:457-566 | a failed transaction leaves the broker one attempt ahead of the ledger |
| `ThreeBooks.LayeredLeavesP40AtThird` | second_shift/dispatch.py:338-351 | layered routing answers p40 exactly below three substantive P40 failures in the ledger, then a usable least-failed member |
| `ThreeBooks.P40UntilThirdFailure` | second_shift/dispatch.py:310-351 | over any run in which a goal is worked on by the model routing answers, routing answers p40 exactly until the goal has failed three times, whatever happens to other goals |
| `FailureLedgerService.IncrementSubstantiveFailure` | second_shift/registry.py:60-76 | counts on the first model with the id and quarantines it if active and at the threshold |
| `FailureLedgerService.ReactivateModel` | second_shift/registry.py:147-166 | needs reviewer and evidence, raises for a model that is not quarantined, clears all counts |
| `FailureLedgerService.ResetFailureCounts` | second_shift/registry.py:105-114 | a quarantined model is reactivated on the same terms, any other loses its counts |
| `FailureLedgerService.FailureLedger.RecordFailure` | second_shift/ledger.py:38-88 | registry and ledger change together, or not at all exactly for missing evidence, an unknown credit status or an unrecognised classification; the entry carries the count and status reached |
| `FailureLedgerService.FailureLedger.RecordSuccess` | second_shift/ledger.py:90-117 | resets the goal's count; raises exactly for a blank artifact or an unknown model |
| `FailureLedgerService.FailureLedger.GetFailureCount` | second_shift/ledger.py:128-130 | the counted ledger entries of model and goal |
| `FailureLedgerService.StepModel` | second_shift/registry.py:60-166 | an event changes the one model it names, and no other |
| `FailureLedgerService.ClearsExactly` | second_shift/registry.py:78-166 | what clears a count: a success on the goal with an artifact, a reactivation out of quarantine or a reset, with reviewer and evidence where the model is quarantined |
| `FailureLedgerService.CountsExactly` | second_shift/ledger.py:38-70 | what adds to a count: a partial, incorrect or test-failing result, recorded with evidence and credit status |
| `FailureLedgerService.OtherFieldsStay` | second_shift/registry.py:60-166 | events change neither id nor credit of a model, no other goal's count by a success or failure, and its artifact only by a success |
| `FailureLedgerService.StreakIsFailuresSinceLastClear` | second_shift/registry.py:57-58 | after any history a count is the number of substantive failures since the last success on the goal, reactivation or reset |
| `FailureLedgerService.ActiveModelStaysBelowThreshold` | second_shift/registry.py:60-76 | a model that is below three on every goal while active stays so, whatever the others do |
| `FailureLedgerService.QuarantineNeedsReviewer` | second_shift/registry.py:147-166 | quarantine is left exactly by a reactivation or reset with a named reviewer and evidence, and then with clean counts |
| `FailureLedgerService.QuarantineAtThreshold` | second_shift/registry.py:67-74 | an active model is quarantined exactly by the failure that brings a count to three |
| `FailureLedgerService.OperationalFailuresChangeNoModel` | second_shift/ledger.py:65-70 | an operational failure changes no count and no status |
| `FailureLedgerService.StreakWithinLedger` | second_shift/ledger.py:38-88 | the registry never counts more than the ledger, whose counted entries are all substantive failures ever recorded |
| `FailureLedgerService.BatchOrderIsIrrelevant` | second_shift/ledger.py:63-87 | counts and statuses after a batch of failures do not depend on its order |
| `PoolRecoveryService.Registry.CheckPoolRecovery` | second_shift/pool_recovery.py:70-122 | one observation: crossing, staged member, actions and record, as specified and characterised by `ActionExactly` |
| `PoolRecoveryService.CountersAreCrossings` | second_shift/pool_recovery.py:81-119 | the counters equal the downward and upward crossings of the observed counts, and the event list has their sum as length |
| `PoolRecoveryService.EachMemberOnceEachWay` | second_shift/pool_recovery.py:87-107 | over any run each recovery member is activated at most once and deactivated at most once |
| `PoolRecoveryService.OnlyRecoveryMembersChange` | second_shift/pool_recovery.py:87-107 | an observation changes at most the status of a recovery member |
| `PoolRecoveryService.NoFlapping` | second_shift/pool_recovery.py:81-119 | without outside changes an action is never followed by another one, however often the pool is observed |
| `PoolRecoveryService.ActionExactly` | second_shift/pool_recovery.py:81-107 | an observation activates or deactivates a member exactly when it is its turn by crossing, count, registry and membership, and leaves it active or on standby |
| `PoolRecoveryService.MembershipExactly` | second_shift/pool_recovery.py:93-107 | who is a recovery member after an observation: whoever came in, even if active already, and whoever was one and did not go out |
| `PoolRecoveryService.RecordExactly` | second_shift/pool_recovery.py:70-122 | an observation records the count it saw, the original pool once, and for each crossing its counter and its entry with the actions taken |
| `PoolRecoveryService.ActionsExactly` | second_shift/pool_recovery.py:81-119 | over any run each of the four actions is taken once if its turn came, and otherwise never |
| `LockedStateFile.StateFile.UpdateState` | second_shift/state.py:135-148 | registry and ledger become what the mutator makes of them, nothing when it raises |
| `LockedStateFile.StateFile.SaveRegistry` | second_shift/state.py:153-155 | only the registry changes, to the one given |
| `LockedStateFile.StateFile.SaveLedgerEntries` | second_shift/state.py:167-169 | only the ledger changes, to the entries given |
| `LockedStateFile.StateFile.ClearLedger` | second_shift/state.py:171-173 | only the ledger changes, to nothing |
| `LockedStateFile.StateFile.AppendLedgerEntry` | second_shift/state.py:157-161 | the entry is added at the end |
| `LockedStateFile.CallExactly` | second_shift/state.py:135-173 | what each of the calls does to both files and answers, on its own |
| `LockedStateFile.ExecutionsAreLinear` | second_shift/state.py:50-85 | in every interleaving each caller past its lock has read what the calls before it in lock order left |
| `LockedStateFile.NoLostUpdates` | second_shift/state.py:135-173 | whatever the interleaving, files and answers are those of the calls run one after another in lock order |
| `LockedStateFile.LedgerOnlyGrows` | second_shift/state.py:135-161 | without ledger overwrites the ledger is what it was followed by what each transaction or append added, in lock order |
| `FailureLedgerService.TransactionExtends` | second_shift/ledger.py:63-87 | recording a failure is such a transaction |

## Left out

- SchedulerService.Scheduler.Serve: each call reads and writes in one step; callers that interleave
  their statements are the subject of `SqlInterleaving`, which leaves the event log out.
- SchedulerService.Scheduler.CompleteTask: a crash inside one SQL statement, which SQLite itself undoes.
- DaemonService.SchedulerDaemon.Schedule: operator calls come between the daemon's scheduler calls,
  not between the read and the write of one; an unguarded update that lands stale beside a
  cancellation is in `SqlInterleaving` only.
- DaemonService.SchedulerDaemon.Lives: retention cleanup does not run within it, because cleanup
  does not ask the scheduler and may remove the filed input of a task whose closing update is
  still missing; `CleanupOldTasks` is proved on its own. `requeue_awaiting_review` is not part
  of it either: a requeued review has a filed input no claim can find.
- DaemonService.SchedulerDaemon.ClaimStagedInput: an input directory that has lost its image file,
  which the source claims and then sends back to wait.
- RecoveryRules.SoundFollowsOutcome: does not say which result a failed or reviewed task carries,
  because recovery closes those without the recorded payload.
- Storage: half-written metadata files, malformed JSON, the rejected directory and output files.
- SqlInterleaving.CompletionAddsUp: retry times; the interleaved statements carry states only.
- SqlInterleaving.ExclusiveAlways: the worker table is fixed and no worker has an empty name.
- Backlog: two live adapter processes (second_shift/backlog_execution_adapter.py:609 does not
  protect against them), the audit entries of queue transitions, and attempt counters.
- Backlog: prompts, parsing, git snapshots and the text of evidence lists; the rule that blocks
  an item on unavailable infrastructure is an arbitrary choice between queued and blocked.
- CodingDispatcher.Dispatcher.RouteCodingRequest: a supplied snapshot without models, whose other keys
  the source adopts where the persisted registry has neither models nor that key, failure counters
  included (second_shift/dispatch.py:300-304).
- CodingDispatcher.Dispatcher.RecordAttemptResult: the same adoption of a supplied snapshot
  (second_shift/dispatch.py:480-482), which can start a counter above zero before the first
  transaction of an empty registry.
- CodingDispatcher.Dispatcher.RouteGtxRequest: whether the ledger has a note of the selection
  already is an input, in place of comparing routing times.
- GtxBroker: crashes between its two registry writes and concurrent broker writers.
- LockedStateFile: crashes inside `update_state`; its registry is written before its ledger.
- FailureLedgerService.BatchOrderIsIrrelevant: the quarantine reason text, which names the last
  failing goal.
- Keyword lists, manifests, model profiles, status API, Telegram ingress, subprocesses and HTTP.
