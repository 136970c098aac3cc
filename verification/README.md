# Verified models of the attendance server

This project models the parts of the attendance and access-control server that are hard to get
right, and proves what they promise. `dafny verify dfyconfig.toml` checks all of it.

The source languages are Rust and Python. Code that the source writes as transactions, loops and
objects with changing fields is written here as classes and methods with loops, each proved
against a specification function; what other threads, crashes and devices may do in between is
written as a state machine over atomic steps, and the main results are about all of its runs.

## What is modelled

**Enrolment of faces on readers.** Pushing a face to a reader is an external effect without
transactions, surrounded by a write-ahead checkpoint protocol. `EnrollmentTables` holds the tables
and every queued transaction as a function on them; `EnrollmentService` is the same, statement by
statement, on a mutable database, with startup recovery as the loop it is. `EnrollmentProtocol`
is the machine of any number of concurrent attempts, device answers (accepted, declined, unclear,
panic), lost writes, retries, crashes and boots. Its steps include the terminalizing write that
runs late, after a definite rejection has already removed the checkpoint and a retry may have put
a new one. `EnrollmentPusher` shows the straight-line code of one target to be a run of that
machine, and `EnrollmentRuns` that the machine can indeed do what enrolments, retries, attempts and
starts need. `EnrollmentRecovery` gives the result of recovery in closed form and proves it the same
through any number of crashes. `EnrollmentVerdict` is the verdict of an enrolment under any
interleaving, `EnrollmentDrain` and `EnrollmentDispatcher` the shutdown of dispatcher and tracker.

**The single-writer queue.** `WriteQueue` is the queue under any number of callers: admission lock
with timeouts, closed flag, bounded channel, background retries, flush, shutdown, cancellation, and
the worker with its transactions, callbacks, counters and panics. `WriteQueueInvariants` and
`WriteQueueHistory` prove what every step keeps, `WriteQueueGuarantees` what callers may rely on,
`WriteQueueAnswers` what answers, rejection counters and the log tell, and `WriteQueueCode` the
methods of the queue and the worker's loop as runs of the machine.
`EventIngest` puts on top of such a writer the agreement of photo files and attendance rows, with
crashes at any point; `EventIngestCode` is one call of it on a mutable file system, and a run of it.

**The attendance calculator.** `ShiftWindows` (windows and their inverse), `Punches` (stable sort
and merge scan against a declarative pairing of two sets of times), `DailyRecord` (the engine),
`DailyColumns` (every column and anomaly it stores, in terms of the events alone), `RecomputeSweep`
(recomputes over a table of daily records).

**Parsers.** `Multipart`, `MultipartRoundTrip`, `Utf8` and `EventPairing`: the tolerant multipart splitter
(framing as in section 5.1.1 of RFC 2046, loosened), and the pairing of alerts with images, buffered
and streamed. `RustLexer`, `RustLexerRoundTrip`, `CfgExpression`, `TestOnlyItems`, `NestedScan`,
`ProductionCode` and `ScanExamples`: the check that keeps raw database writes out of production code,
from characters to reported violations, against what is compiled without `test`. `Options` and
`Sequences` are small helpers.

## What the proofs found

Each is stated as a theorem about the code as it is.

- `split_headers` (backend/src/isapi/parser.rs:228-239) slices backwards, and so panics, exactly when
  leading CRLFs were skipped and the first complete line is no header while there is no blank line
  and no payload opens (`Multipart.PanicsExactly`, smallest input in `Multipart.PanicHappens`). The
  model returns no parts then; every other result is as the code's.
- The writer check (scripts/check_db_write_queue.py:241-279) takes an item under a test-only attribute to
  end at the first semicolon or block beside the attribute, wherever the item really ends. What it looks
  at is exactly the production code if and only if no gated element holds such an end before its last
  node, and its last node is one wherever production code follows or a bracket closes
  (`ProductionCode.ScanIsExact`). Otherwise it errs in both directions. A gated field hides the function
  behind its struct, and a gated match arm the arm behind it (`ScanExamples.FieldHidesFunction`,
  `ScanExamples.ArmHidesArm`), which its own test
  `test_cfg_test_item_does_not_hide_following_production_item` promises not to happen; and the `else` of a
  gated `if` is reported although it is no production code (`ScanExamples.ElseIsReported`).
- The same check reads `cfg(test = "x")` as `cfg(test)` (`CfgExpression.ValuedTestIsMisread`). On a
  condition that mentions nothing twice it ignores an item wrongly exactly when that misreading takes away
  the flag for truth (`CfgExpression.TestOnlyMeans`).
- A command accepted by the dispatcher while it is being closed can be sent behind the close and is
  then neither admitted nor recorded (`EnrollmentDrain.DispatchBehindCloseIsLost`): its pushes stay
  pending with a prepared checkpoint until the next start.
- A recovered push has its active mapping if and only if no purge checkpoint names that same mapping
  (`EnrollmentRecovery.RecoveredMeaning`): recovery processes purges last. `EnrollmentRecovery.PurgeUndoesPush`
  is a database where one does.
- Late, worked and early minutes fit into the day unless the last exit comes before the first entry and
  the amounts beyond the two graces overlap; `DailyRecord.ConservedExactly` has the exact condition. With a
  shift from 08:00 to 17:00, an exit at 10:00 and an entry at 15:00 make seven hours late and seven hours
  early (`DailyRecord.DoubleCountedWhenExitComesFirst`).
- The anchor lookup finds every day whose window holds an instant if and only if the tolerances keep
  the window within the anchor's dates (`ShiftWindows.AnchorLookupInvertsWindow`).
- The minute columns of a sweep do not depend on its order, but the anomalies of the weekly and annual caps do: exactly when
  only one of two orders had seen the cap exceeded (`RecomputeSweep.OrderMattersExactly`, with two days in
  `RecomputeSweep.BackwardSweepMissesTheCap`).
- The stored 30-second bucket is documented as a floor (backend/src/db/migrations/004_attendance_events.sql:3 and 13);
  the code truncates, which differs before 1970 (`EventIngest.BucketIsFloor`).
- The buffered and the streamed reader classify a part alike if and only if its label fits its first
  bytes (`EventPairing.ReadersAgreeExactly`); `EventPairing.ReadersDisagree` has two parts that do not.

## Assumptions

- An error from the write queue means that the transaction did not commit.
- Dafny's `int` stands for 64-bit times, minutes and counters; overflow is not modelled, except that the
  depth counter is proved never to go below zero. Division is written out where signs matter.
- Rows that a command or checkpoint names are not deleted while a run goes on, and a face belongs to one
  employee; the protocol's invariant shows that its own steps keep this.
- Identifiers drawn during a run are fresh; they are parameters, as are device answers, lost writes and the
  order in which the database returns unordered rows.
- Time zones are an arbitrary function from local times to what the calendar library may answer; window
  results that need it are stated for a fixed offset. Dates are day numbers; the first representable date
  and the first day of a year are parameters.
- Character classes of the lexer's host language are parameters with the facts stated in
  `RustLexerRoundTrip.Sane`; ASCII meets them.

## Model

| member | source | states |
|---|---|---|
| `EnrollmentProtocol.NoCallAfterApplied` | backend/src/enrollments/pusher.rs:437-647 | over every run of enrolments, authorized attempts, stale terminalizations, retries, crashes, boots and recovery steps: once the last call for a push was applied or is of unknown outcome, no later state has another call for it |
| `EnrollmentProtocol.DeviceAppliesAtMostOnce` | backend/src/enrollments/pusher.rs:555-646 | whatever the unknown calls really did, at most one call of a push took effect on the device |
| `EnrollmentProtocol.OnlyTheLastCallCounts` | backend/src/enrollments/pusher.rs:557-646 | every call of a push but the last was definitely declined, and a call that is out belongs to a running attempt |
| `EnrollmentProtocol.RetryOnlyAfterDeclined` | backend/src/enrollments/service.rs:1162-1196 | where the retry guard lets a push through, all its calls were definitely declined and no attempt on it is still before its terminal write |
| `EnrollmentProtocol.RetryableUntilRetried` | backend/src/enrollments/pusher.rs:600-619 | the converse over runs: once a definite rejection, or a reader that could not be built, was recorded by a landed write, the push is failed without a checkpoint in every later state until somebody retries it, late terminalizing writes included |
| `EnrollmentProtocol.RecoveryConverges` | backend/src/enrollments/dispatcher.rs:24-203 | from the moment the process went down until it serves again, through any number of crashed boots, each transaction drawing identifiers of its own, no device call is added and the tables end as the recovered ones, every new identifier being one that was drawn, or from an arbitrary spare source where none was |
| `EnrollmentProtocol.NextInv` | backend/src/enrollments/pusher.rs:229-344 | the invariant of the protocol (ownership of pushes by live attempts, histories, sealed pushes, resolvable checkpoints, half-done recovery) is kept by every step, the stale terminalization after a definite rejection included |
| `EnrollmentProtocol.RunInv` | backend/src/enrollments/pusher.rs:229-344 | the invariant holds in every reachable state |
| `EnrollmentRecovery.RecoveryIsReentrant` | backend/src/enrollments/dispatcher.rs:24-203 | any number of boots, each stopped after any number of its transactions and with identifiers of its own, followed by a complete one, leave exactly what a single undisturbed recovery leaves, up to which boot drew the identifier of a new mapping |
| `EnrollmentRecovery.RecoveryReachesGoal` | backend/src/enrollments/dispatcher.rs:44-203 | recovery run to its end from any resolvable tables produces a closed-form result that does not mention the order of processing |
| `EnrollmentRecovery.RecoveredMeaning` | backend/src/enrollments/service.rs:760-850 | after recovery no checkpoint is prepared or device-applied; confirmed pushes are successes, all other checkpointed ones failed and manual, all others untouched; touched and settled enrolments carry their verdict; a confirmed push has its active mapping if and only if no purge checkpoint names that mapping |
| `EnrollmentRecovery.RecoveredMappings` | backend/src/enrollments/dispatcher.rs:51-203 | the mappings row by row: which ones there are, under which identifier, whose they are and in which state, by the checkpoints of enrolments, backfills and purges that name them |
| `EnrollmentRecovery.PurgeUndoesPush` | backend/src/enrollments/dispatcher.rs:165-198 | a database with a confirmed push and a purge of the mapping it renews: both checkpoints are resolvable, the push ends as a success, and the mapping is gone or still to be deleted |
| `EnrollmentRecovery.DueKeepsGoal` | backend/src/enrollments/service.rs:760-968 | no single transaction recovery may issue changes the result of a complete recovery |
| `EnrollmentRecovery.KeyKeepsGoal` | backend/src/enrollments/dispatcher.rs:51-203 | a crash between the two transactions of one checkpoint does not change the result of a complete recovery |
| `EnrollmentRecovery.KeyGetsDone` | backend/src/enrollments/dispatcher.rs:51-203 | processing a checkpoint finishes it and leaves finished ones finished |
| `EnrollmentRecovery.InterruptionKeepsGoal` | backend/src/enrollments/dispatcher.rs:44-203 | a crash after any number of transactions leaves resolvable tables with the same recovery result |
| `EnrollmentVerdict.VerdictUnderAnyInterleaving` | backend/src/enrollments/pusher.rs:242-325 | with every write landing and no retry of its pushes, however the device tasks of an enrolment interleave with each other and the rest: after they are over and finalization ran, no push is pending or in progress, a push succeeded exactly when its device accepted, and the enrolment is a success iff it has a device and all accepted, failed iff none did, partial otherwise |
| `EnrollmentVerdict.JoinedIsSettled` | backend/src/enrollments/service.rs:1317-1368 | joined device tasks leave the enrolment settled, with each push saying what its device answered |
| `EnrollmentTables.SettledMeaning` | backend/src/enrollments/service.rs:1317-1345 | the aggregate counters are zero for pending and in-progress exactly when every push of the enrolment is terminal |
| `EnrollmentTables.VerdictMeaning` | backend/src/enrollments/service.rs:1340-1368 | verdict by counters against the pushes themselves: success iff there is one and all succeeded, failed iff all failed |
| `EnrollmentService.EnrollmentDatabase.StartEnrollment` | backend/src/enrollments/service.rs:465-674 | on an unknown employee nothing changes; otherwise the enrolment, the face if there was none, and one pending push with one prepared checkpoint per target are added |
| `EnrollmentService.EnrollmentDatabase.InsertTargets` | backend/src/enrollments/service.rs:597-640 | the loop over the active devices adds exactly the pending rows and prepared checkpoints of all targets, and touches no other row |
| `EnrollmentService.EnrollmentDatabase.RetryEnrollmentPush` | backend/src/enrollments/service.rs:1144-1224 | which of the four answers is given and why, by the row of that enrolment and device; only a failed push without a checkpoint changes, to pending with a prepared checkpoint |
| `EnrollmentService.EnrollmentDatabase.AdmitDeviceOperation` | backend/src/enrollments/service.rs:161-200 | inserts a prepared checkpoint only where there was none and reports the state found |
| `EnrollmentService.EnrollmentDatabase.UpsertMapping` | backend/src/enrollments/service.rs:1371-1395 | an existing mapping of the pair keeps its id, becomes active and takes the employee; otherwise a new active one |
| `EnrollmentService.EnrollmentDatabase.CompletePushSuccess` | backend/src/enrollments/service.rs:706-757 | push, mapping and checkpoint together, or nothing when the push row is gone |
| `EnrollmentService.EnrollmentDatabase.CompletePushFailure` | backend/src/enrollments/service.rs:853-889 | the push failed and its checkpoint gone, both together, or nothing; no other row of either table changes |
| `EnrollmentService.EnrollmentDatabase.RecordPushRecoveryFailure` | backend/src/enrollments/service.rs:892-932 | push failed, checkpoint manual if asked and present; a missing push rolls the checkpoint back |
| `EnrollmentService.EnrollmentDatabase.TerminalizeAuthorizedFailure` | backend/src/enrollments/service.rs:935-968 | only a prepared checkpoint becomes manual and only a non-terminal push becomes failed, each independently of the other |
| `EnrollmentService.EnrollmentDatabase.FinalizeEnrollment` | backend/src/enrollments/service.rs:1317-1368 | no change while a push is not terminal; a missing enrolment bails out; otherwise the verdict of the counters is stored |
| `EnrollmentService.EnrollmentDatabase.CompleteRecoveredPushSuccess` | backend/src/enrollments/service.rs:760-850 | push, mapping, checkpoint and verdict all or nothing, with the exact condition for each |
| `EnrollmentService.EnrollmentDatabase.RecoverPush` | backend/src/enrollments/dispatcher.rs:52-115 | the enrolment-push arm of recovery: succeeds exactly when all rows the checkpoint names exist, and then does what one step of the recovery specification does |
| `EnrollmentService.EnrollmentDatabase.RecoverBackfill` | backend/src/enrollments/dispatcher.rs:116-164 | the backfill arm, likewise |
| `EnrollmentService.EnrollmentDatabase.RecoverPurge` | backend/src/enrollments/dispatcher.rs:165-198 | the purge arm, likewise |
| `EnrollmentService.EnrollmentDatabase.RecoverCheckpoint` | backend/src/enrollments/dispatcher.rs:51-203 | one checkpoint, whatever its kind; other checkpoints keep their keys |
| `EnrollmentService.EnrollmentDatabase.RecoverStartupCheckpoints` | backend/src/enrollments/dispatcher.rs:24-203 | from any resolvable tables the loop runs to its end and leaves the recovered tables |
| `EnrollmentPusher.PushAuthorizedTarget` | backend/src/enrollments/pusher.rs:260-302 | the straight-line code of one target, panics of building and calling included, is a run of the attempt machine; it succeeds exactly when mark, connection, device and both later writes go well; the device is called exactly when the mark commits and the reader can be built; every failure ends in the terminalizing write; what it leaves in the push and checkpoint columns: a success without a checkpoint, a failure without one after a recorded definite rejection or an unbuildable reader, a failure with a manual one where the outcome is unclear |
| `EnrollmentPusher.AttemptEnds` | backend/src/enrollments/pusher.rs:260-302 | how an attempt ends, for every combination of device answer, panic and lost write: the push status and the checkpoint it leaves |
| `EnrollmentPusher.PushEnrollmentDevice` | backend/src/enrollments/pusher.rs:515-647 | the authorized branch without the wrapper, likewise |
| `EnrollmentPusher.CallDevice` | backend/src/enrollments/pusher.rs:555-646 | the device call and what follows each of its three answers, or a panic in it |
| `EnrollmentPusher.PersistSuccess` | backend/src/enrollments/pusher.rs:558-598 | checkpoint first, then completion, with the failure record each needs |
| `EnrollmentPusher.RecordFailure` | backend/src/enrollments/pusher.rs:516-526 | the recovery failure record is one write of the attempt, manual except after a durable confirmation |
| `EnrollmentPusher.CompleteFailure` | backend/src/enrollments/pusher.rs:536-544 | the definite failure record is one write of the attempt |
| `EnrollmentRuns.EnrolmentGoesThrough` | backend/src/enrollments/pusher.rs:229-344 | the machine can take an enrolled target from the request to the end of its attempt, whatever the device and the writes do; push and checkpoint end as the code says, and a success has put down the mapping of the target's device and the employee's face |
| `EnrollmentRuns.RetryStep` | backend/src/enrollments/service.rs:1144-1224 | a retryable push can be handed over again, with the device of its row and the employee of its enrolment |
| `EnrollmentRuns.AttemptPath` | backend/src/enrollments/pusher.rs:437-647 | the code of an attempt is a path of the machine, step for step, that moves nothing but the attempt, its history and its tables |
| `EnrollmentRuns.AttemptsAreFaithful` | backend/src/enrollments/pusher.rs:437-515 | in every reachable state an attempt works with the device of its push and the employee and face of that push's enrolment |
| `EnrollmentRuns.BootGoesThrough` | backend/src/enrollments/dispatcher.rs:24-203 | a process that is down can start, recover in the order the database lists the checkpoints, and serve with the recovered tables |
| `EnrollmentDrain.DrainedExactlyBeforeClose` | backend/src/enrollments/dispatcher.rs:262-303 | when the dispatcher has stopped, every command sent before the first close is admitted or has all its pushes recorded unless such a write was lost, admitted outright when nobody but the loop stopped the tracker; none sent behind the close is either |
| `EnrollmentDrain.StoppedForGood` | backend/src/enrollments/pusher.rs:79-101 | with any number of callers of stop-and-join: after the first returned nothing runs and nothing is admitted any more; the first says exactly whether all admitted tasks succeeded, and all later ones say Ok |
| `EnrollmentDrain.SomebodyWasFirst` | backend/src/enrollments/pusher.rs:79-101 | whenever some call has returned there was a first one, and admission is over |
| `EnrollmentDrain.DispatchBehindCloseIsLost` | backend/src/enrollments/dispatcher.rs:285-303 | a concrete run in which a command accepted by enqueue is sent behind the close and is then neither admitted nor recorded |
| `EnrollmentDrain.RaceStep` | backend/src/enrollments/dispatcher.rs:285-303 | each step of that run is possible |
| `EnrollmentDrain.RefusalHappens` | backend/src/enrollments/pusher.rs:79-101 | a run in which somebody else stops the tracker while the loop is about to spawn: the command is refused and goes to the written record |
| `EnrollmentDrain.RunInv` | backend/src/enrollments/dispatcher.rs:262-283 | books of tracker and dispatcher loop hold in every reachable state |
| `EnrollmentDrain.EnrollmentTaskTracker.constructor` | backend/src/enrollments/pusher.rs:37-44 | a new tracker accepts and has admitted nothing |
| `EnrollmentDrain.EnrollmentTaskTracker.SpawnResult` | backend/src/enrollments/pusher.rs:57-70 | a spawn succeeds exactly while the tracker accepts; finished tasks are booked on the way |
| `EnrollmentDrain.EnrollmentTaskTracker.StopAndJoin` | backend/src/enrollments/pusher.rs:79-101 | no task is left, admission is over, and the result is Ok exactly when every task not reported before succeeded |
| `EnrollmentDrain.EnrollmentTaskTracker.RecordJoinResult` | backend/src/enrollments/pusher.rs:103-114 | failed tasks and only they are booked |
| `EnrollmentDispatcher.RefusalMeans` | backend/src/enrollments/pusher.rs:327-342 | with every write through, the write-down of a refused command fails exactly its pushes, makes exactly their checkpoints manual, and finalizes on top of that |
| `EnrollmentDispatcher.RefusalFailsTheEnrollment` | backend/src/enrollments/pusher.rs:327-342 | a refused command naming every push of its enrolment ends that enrolment as failed |
| `EnrollmentDispatcher.EnrollmentDispatcher.Enqueue` | backend/src/enrollments/dispatcher.rs:285-293 | sends exactly while accepting and while there is a receiver |
| `EnrollmentDispatcher.EnrollmentDispatcher.SendClose` | backend/src/enrollments/dispatcher.rs:295-303 | only the first close sends; later ones are Ok and do nothing |
| `EnrollmentDispatcher.EnrollmentDispatcher.SpawnAuthorized` | backend/src/enrollments/pusher.rs:229-344 | admitted or written down, never both, and writes stop at the first that fails |
| `EnrollmentDispatcher.EnrollmentDispatcher.ReceiveUntilClose` | backend/src/enrollments/dispatcher.rs:268-279 | the loop takes exactly the messages before the first close, admitting all or writing all down |
| `EnrollmentDispatcher.EnrollmentDispatcher.Run` | backend/src/enrollments/dispatcher.rs:262-283 | start can be used once; afterwards the tracker is stopped, nothing runs, and the result says whether all tasks succeeded |
| `WriteQueueGuarantees.Serialization` | backend/src/db/write_queue.rs:596-699 | in every reachable state, for any number of callers and any interleaving, the database is the fold of the committed transactions (and jobs) in admission order over the initial one; the worker has run a prefix of the admitted commands, each once |
| `WriteQueueGuarantees.RefusedNeverRuns` | backend/src/db/write_queue.rs:329-352 | a call answered Busy or Closed, background retries included, is never admitted and never run, then or later |
| `WriteQueueGuarantees.ReplyTellsTheFate` | backend/src/db/write_queue.rs:404-444 | Ok from a transaction means that this one committed; a job error means it did not begin, rolled back or failed to commit |
| `WriteQueueGuarantees.CallbacksFollowCommits` | backend/src/db/write_queue.rs:650-667 | callbacks fired are those of committed transactions, once each, in order, complete before the worker does anything else |
| `WriteQueueGuarantees.NothingAfterShutdown` | backend/src/db/write_queue.rs:526-558 | a shutdown is the last command ever queued |
| `WriteQueueGuarantees.BarrierMeans` | backend/src/db/write_queue.rs:490-496 | everything admitted before a flush (or close) that returned Ok has run |
| `WriteQueueGuarantees.CountersAddUp` | backend/src/db/write_queue.rs:569-594 | in every reachable state accepted = completed + failed + depth + in flight + being admitted, and depth is never negative; with nothing in flight completed counts the commands that succeeded and failed the others |
| `WriteQueueGuarantees.ClosedAndFlushed` | backend/src/db/write_queue.rs:561-566 | after a successful close: empty channel, depth 0, accepted = completed + failed, every accepted command run exactly once |
| `WriteQueueGuarantees.ClosedIsFinal` | backend/src/db/write_queue.rs:561-566 | and nothing later changes the database, the log or what was admitted |
| `WriteQueueGuarantees.BusyAfterEveryAttempt` | backend/src/db/write_queue.rs:329-352 | a call answered Busy was refused exactly once in the foreground and exactly four times in the background, and no call is refused more often |
| `WriteQueueAnswers.AnswersAreTrue` | backend/src/db/write_queue.rs:290-315 | a call answered Closed met a flag that another call, a close, had raised; one answered WorkerStopped a worker that is gone |
| `WriteQueueAnswers.RejectionsAreCounted` | backend/src/db/write_queue.rs:264-315 | in every reachable state the busy counter is the number of refusals, retries included, and the closed counter the number of calls other than closes that were turned away |
| `WriteQueueAnswers.FailedLeaveNoTrace` | backend/src/db/write_queue.rs:635-683 | the log without a transaction that did not commit replays to the same database |
| `WriteQueueAnswers.OthersShow` | backend/src/db/write_queue.rs:623-683 | a committed transaction, and a plain job however it ended, shows what its code left |
| `WriteQueueAnswers.CallbacksOfOne` | backend/src/db/write_queue.rs:650-667 | the callbacks due grow by those of a transaction, in order, if and only if it committed |
| `WriteQueueHistory.QueueStep` | backend/src/db/write_queue.rs:264-352 | the whole invariant of queue and history is kept by every step of every caller and of the worker |
| `WriteQueueHistory.RunInv` | backend/src/db/write_queue.rs:596-699 | and so holds in every reachable state |
| `WriteQueueInvariants.FrontClientStep` | backend/src/db/write_queue.rs:264-327 | lock, flag, channel capacity and closing order are kept by every step of a caller |
| `WriteQueueCode.DbWriteQueue.constructor` | backend/src/db/write_queue.rs:244-258 | a new queue is an initial state |
| `WriteQueueCode.DbWriteQueue.CheckClosed` | backend/src/db/write_queue.rs:290-297 | the closed flag read, or for a close swapped, with the matching rejection |
| `WriteQueueCode.DbWriteQueue.SendCounted` | backend/src/db/write_queue.rs:317-319 | counters first, then the command at the end of the channel |
| `WriteQueueCode.DbWriteQueue.ReserveAndSend` | backend/src/db/write_queue.rs:299-319 | slot and command together |
| `WriteQueueCode.DbWriteQueue.AdmitOnce` | backend/src/db/write_queue.rs:264-327 | one attempt is a run of the machine; its answer by lock, flag, worker and room; the channel grows by this command exactly on Ok |
| `WriteQueueCode.DbWriteQueue.Admit` | backend/src/db/write_queue.rs:329-352 | the retry loop: stops at the first answer other than Busy, gives up after one attempt in the foreground and four in the background, and queues the command at most once |
| `WriteQueueCode.DbWriteQueue.AdmitControl` | backend/src/db/write_queue.rs:498-559 | flush and close admission, uncounted, with the flag raised by a close even when it then fails |
| `WriteQueueCode.DbWriteQueue.ExecuteJob` | backend/src/db/write_queue.rs:623-634 | a plain job leaves what it wrote, whatever it returned |
| `WriteQueueCode.DbWriteQueue.RunTransactionBody` | backend/src/db/write_queue.rs:644-680 | a failing body is rolled back |
| `WriteQueueCode.DbWriteQueue.CommitTransaction` | backend/src/db/write_queue.rs:650-668 | a failing commit leaves no trace and fires nothing |
| `WriteQueueCode.DbWriteQueue.RunAfterCommit` | backend/src/db/write_queue.rs:653-664 | all callbacks, in order of registration |
| `WriteQueueCode.DbWriteQueue.ExecuteTransaction` | backend/src/db/write_queue.rs:635-683 | Ok exactly when it began, its body succeeded and it committed, and only then the database changes |
| `WriteQueueCode.DbWriteQueue.HandleCommand` | backend/src/db/write_queue.rs:621-694 | one turn of the worker is a run of the machine and ends idle, or exiting behind a shutdown |
| `WriteQueueCode.DbWriteQueue.RunWriteWorker` | backend/src/db/write_queue.rs:596-699 | the loop takes commands up to the first shutdown and none behind it |
| `WriteQueueCode.LeadsKeepsInv` | backend/src/db/write_queue.rs:596-699 | whatever the class methods do keeps the invariant of the machine |
| `WriteQueueCode.CodeIsSerial` | backend/src/db/write_queue.rs:596-699 | so the class serializes, fires callbacks after commits and counts correctly |
| `EventIngest.CommittedRowHasItsFile` | backend/src/events/service.rs:263-347 | in every reachable state, crashes anywhere included, a committed row with a photo path has its file, written by the very call that committed the row |
| `EventIngest.NoFileWithoutRow` | backend/src/events/service.rs:263-347 | a call that returned an error or deduplicated left neither file nor row |
| `EventIngest.FilesAgreeWithRows` | backend/src/events/service.rs:263-347 | with no call in progress or lost to a crash, the files are exactly those the rows name |
| `EventIngest.OutcomesAreTrue` | backend/src/events/service.rs:292-347 | Inserted means the row is there, Deduplicated that another row has the same id or bucket, and no two rows share a bucket |
| `EventIngest.DeduplicatedIsKnown` | backend/src/events/service.rs:292-317 | in every reachable state a call that ended as Deduplicated has another row with its event id, or one of the same known employee, device, direction and 30-second slot |
| `EventIngest.KeysCollideExactly` | backend/src/events/service.rs:292-317 | two events share the unique key if and only if they have the same known employee, the same device, the same direction and truncated times in the same 30 seconds |
| `EventIngest.RequestsFollowCommits` | backend/src/events/service.rs:317-347 | recompute requests go out in commit order; those sent for a call are a prefix of its own, once each, none if it did not insert, and all of them once it returned Inserted while the receiver lived |
| `EventIngest.IngestStep` | backend/src/events/service.rs:263-347 | the invariant behind these is kept by every step |
| `EventIngest.RequestsCoverTheShift` | backend/src/events/service.rs:88-139 | an event of a known employee asks for at least one day, and for every day whose window holds it |
| `EventIngest.RequestsAreSound` | backend/src/events/service.rs:88-139 | and for nothing but days whose window holds it and its own date: nothing without a known employee or a local date, its own date alone when the shift cannot be looked up |
| `EventIngest.BucketIsFloor` | backend/src/events/service.rs:268 | the stored 30-second bucket is the floor that the schema speaks of exactly from 1970 on, or on whole buckets before |
| `EventIngestCode.AtomicFileGuard.Write` | backend/src/storage/atomic_file.rs:21-90 | publishes without ever replacing a file |
| `EventIngestCode.AtomicFileGuard.Drop` | backend/src/storage/atomic_file.rs:105-122 | an unkept guard removes its file if and only if it is still its own |
| `EventIngestCode.EventStore.InsertRow` | backend/src/events/service.rs:296-317 | insert-or-ignore by id and by bucket, with the affected count |
| `EventIngestCode.EventStore.PersistAttendanceEventQueued` | backend/src/events/service.rs:263-347 | one call from beginning to end: with every step going well it is Deduplicated if and only if there is a row of its event id, or of the same known employee, device, direction and 30-second slot; what an insert adds, and that every other way leaves files, rows and requests as they were |
| `EventIngestCode.CallIsARun` | backend/src/events/service.rs:263-347 | that call is a run of the machine: with nobody else in the middle of anything, the machine takes it through, with the same things failing, to the same outcome, rows, files and requests |
| `ShiftWindows.ResolveMeans` | backend/src/calc/overnight.rs:30-56 | the epoch chosen for a local time, on any zone: the instant itself, the earlier of two, or up to two hours on in a gap, and the clock reading itself when nothing resolves; flagged exactly when it was not unique |
| `ShiftWindows.WindowAt` | backend/src/calc/overnight.rs:68-104 | in a fixed-offset zone the window is a fixed interval after the anchor's midnight |
| `ShiftWindows.AnchorLookupInvertsWindow` | backend/src/calc/aggregation.rs:99-125 | the lookup finds every day whose window holds an instant if and only if the tolerances keep the window between the anchor's midnight and the end of its last date, or the window is empty |
| `ShiftWindows.AnchorIsFound` | backend/src/calc/aggregation.rs:99-125 | the day whose window holds the instant is among the anchors |
| `ShiftWindows.WindowMeans` | backend/src/calc/overnight.rs:68-104 | in any zone: nominal start and end resolved from the anchor date and the shift, the window a tolerance and a bonus wider on either side, and flagged exactly when one of the ends is not unique |
| `ShiftWindows.AnchorsExactly` | backend/src/calc/aggregation.rs:99-125 | in any zone which dates are anchors: the day before if its window holds the instant, the own date if its window does or the day before does not; day shifts always their own date |
| `ShiftWindows.ShortWindowsAreDisjoint` | backend/src/calc/overnight.rs:68-104 | windows shorter than a day: at most one day claims an instant |
| `ShiftWindows.OneAnchor` | backend/src/calc/aggregation.rs:99-125 | windows shorter than a day: exactly one anchor is returned |
| `ShiftWindows.AnchorIsTheDay` | backend/src/calc/aggregation.rs:99-125 | both together: the one anchor is the day whose window holds the instant |
| `Punches.AggregateEvents` | backend/src/calc/aggregation.rs:140-177 | entries and exits are the stable sort of the known events in the window, the canonical ones the earliest and latest, and all three answers depend on the set of events only |
| `Punches.SortKeeps` | backend/src/calc/aggregation.rs:164-165 | the sort used is sorted, a permutation, and stable |
| `Punches.PairWorkIntervals` | backend/src/calc/aggregation.rs:219-254 | the merge scan computes the declarative pairing of the two sets of times |
| `Punches.ScanRefines` | backend/src/calc/aggregation.rs:236-251 | the scan over any timeline with entries before exits of the same second is that pairing |
| `Punches.PairingMeans` | backend/src/calc/aggregation.rs:190-254 | what the pairing says: each start the earliest entry after the last end, each end the earliest exit not before its start, intervals strictly apart, and the open flag true exactly when some entry is later than every exit |
| `Punches.PairingIsComplete` | backend/src/calc/aggregation.rs:219-254 | nothing that could be paired is left out: no entry behind the last interval finds an exit |
| `Punches.PairingIsUnique` | backend/src/calc/aggregation.rs:219-254 | these rules determine the pairing |
| `DailyRecord.ComputeDailyRecord` | backend/src/calc/engine.rs:15-170 | the engine computes the record specified on the set of punched times, whose every column and anomaly `DailyColumns` gives in terms of the events |
| `DailyRecord.AttendedMinutes` | backend/src/calc/engine.rs:69-131 | work, lateness and early departure of a day with both punches |
| `DailyRecord.MinutesOf` | backend/src/calc/engine.rs:60-132 | the three cases of missing and present punches |
| `DailyRecord.FromAggregate` | backend/src/calc/engine.rs:134-169 | overtime, caps, rest day and the order of the anomalies |
| `DailyRecord.LeaveOverlay` | backend/src/calc/engine.rs:18-38 | a leave day ignores all punches but says that there were some |
| `DailyRecord.RecordIgnoresOrderAndCopies` | backend/src/calc/engine.rs:15-170 | two event lists with the same elements give the same record and anomaly list |
| `DailyRecord.RecordIgnoresPermutation` | backend/src/calc/engine.rs:15-170 | so permutations and replays change nothing |
| `DailyRecord.MinutesAreConserved` | backend/src/calc/engine.rs:60-132 | late + work + early fits between the earlier of shift start and first entry and the later of shift end and last exit; work within the first-to-last span |
| `DailyRecord.WorkedWithinSpan` | backend/src/calc/engine.rs:90-98 | paired seconds never exceed the span from first entry to last exit |
| `DailyRecord.ConservedExactly` | backend/src/calc/engine.rs:69-131 | of any entries and exits: that bound fails if and only if the last exit comes before the first entry and the rounded amounts beyond the graces overlap, in four cases |
| `DailyRecord.CountsTwiceInsideTheShift` | backend/src/calc/engine.rs:100-131 | inside the shift: only where both graces are exceeded, and always where they are and the gap is two minutes |
| `DailyRecord.DoubleCountedWhenExitComesFirst` | backend/src/calc/engine.rs:100-131 | one input where it fails: seven hours late and seven hours early in a shift of nine |
| `DailyRecord.LatenessIsACliff` | backend/src/calc/engine.rs:100-129 | late is 0 or the full amount and then at least tolerance plus bonus; the same for early |
| `DailyRecord.WorkBalances` | backend/src/calc/expected.rs:17-31 | work + deficit = expected + overtime if and only if leave, or weekday with positive ordinary minutes, or zero ordinary minutes, or a weekend without work |
| `DailyRecord.AnomaliesAreRanked` | backend/src/calc/engine.rs:45-157 | no anomaly twice, always in the same order |
| `DailyRecord.FixedLunchLeavesWork` | backend/src/calc/lunch.rs:67-90 | a fixed lunch never takes all of the work |
| `DailyRecord.CheckOvertimeCaps` | backend/src/calc/overtime.rs:16-36 | each cap is flagged exactly above its threshold, in a fixed order |
| `DailyColumns.EntryAndExit` | backend/src/calc/engine.rs:41-62 | first entry and last exit of a working day: the earliest and latest punches of known badges in the window |
| `DailyColumns.WorkInColumns` | backend/src/calc/lunch.rs:67-90 | work by lunch mode: all paired minutes with a punched break, without one less the configured lunch; a fixed lunch only where it leaves something; never below zero |
| `DailyColumns.SecondsAreCounted` | backend/src/calc/engine.rs:90-98 | paired minutes are the seconds inside the intervals, each counted once |
| `DailyColumns.LatenessInColumns` | backend/src/calc/engine.rs:100-131 | late and early minutes: zero within tolerance and bonus, beyond them all of it |
| `DailyColumns.HalfADayHasNoMinutes` | backend/src/calc/engine.rs:60-68 | without an entry or without an exit no work, no lateness, no early departure |
| `DailyColumns.OvertimeInColumns` | backend/src/calc/engine.rs:134-144 | overtime is what exceeds the ordinary day; a rest day is worked exactly on Saturdays and Sundays with work |
| `DailyColumns.AnomaliesInColumns` | backend/src/calc/engine.rs:41-165 | each anomaly of a working day if and only if: no entry, an entry later than every exit, a missing lunch punch, an unknown face, an ambiguous window, each cap, an earlier record |
| `DailyColumns.LeaveInColumns` | backend/src/calc/engine.rs:18-38 | columns and anomalies of a leave day |
| `RecomputeSweep.DailyRecords.RecomputeForDay` | backend/src/daily_records/service.rs:40-367 | one recompute replaces one row and its anomalies, or nothing when the employee is unknown or the write fails, whatever order the database returned the events in; what it stores is in `RecomputedIs`, `OnlyOwnPunches` and `CapsOfOneDay` |
| `RecomputeSweep.DailyRecords.UpsertRow` | backend/src/daily_records/service.rs:288-360 | row and anomalies replaced, all others untouched |
| `RecomputeSweep.AnyAnswer` | backend/src/daily_records/service.rs:139-173 | the order of the query's rows does not matter |
| `RecomputeSweep.RecomputedIs` | backend/src/daily_records/service.rs:100-265 | the row and anomalies stored are the record of the employee's settings, leave and earlier record, and of the overtime stored from the week's Monday and from the first day of the year through the day before |
| `RecomputeSweep.OnlyOwnPunches` | backend/src/daily_records/service.rs:124-173 | the day is computed from the employee's own punches in the window, whatever else the query brings along |
| `RecomputeSweep.SumSplits` | backend/src/daily_records/service.rs:176-219 | the sums are those of the days in them |
| `RecomputeSweep.ColumnsAreFixed` | backend/src/daily_records/service.rs:266-365 | the stored columns do not depend on what the table holds |
| `RecomputeSweep.SweepMeans` | backend/src/daily_records/service.rs:266-365 | after any sequence of recomputes a covered day has its fixed columns and every other day what it had |
| `RecomputeSweep.SweepIgnoresOrderAndRepetition` | backend/src/daily_records/service.rs:266-365 | sweeps covering the same days store the same rows |
| `RecomputeSweep.CapsOfOneDay` | backend/src/daily_records/service.rs:176-219 | when one recompute flags the daily, the weekly and the annual cap, by the day's work and the overtime stored since the week or the year began, and the day's own |
| `RecomputeSweep.WeekSweepFlagsTheCap` | backend/src/daily_records/service.rs:176-199 | an ascending sweep of a week flags a day iff it has work and the running sum from Monday through it exceeds 600 |
| `RecomputeSweep.YearSweepFlagsTheCap` | backend/src/daily_records/service.rs:201-219 | an ascending sweep from the first day of the year flags a day's annual cap iff it has work and the running sum through it exceeds 6000 |
| `RecomputeSweep.AnySweepFlagsTheCaps` | backend/src/daily_records/service.rs:176-219 | after any sweep, in any order and with repetitions, a day has the daily, weekly or annual anomaly iff it has work and its last recompute saw the cap exceeded: by its own minutes, those computed for the days swept before, and what the table had for the others |
| `RecomputeSweep.OrderMattersExactly` | backend/src/daily_records/service.rs:176-199 | two sweeps differ on the weekly or the annual anomaly of a day exactly when it has work and only one of them had seen that cap exceeded |
| `RecomputeSweep.BackwardSweepMissesTheCap` | backend/src/daily_records/service.rs:176-199 | a world in which they do: two days of 340 minutes overtime, swept backwards, store the same rows and miss the anomaly |
| `RecomputeSweep.UnknownFaceIsScoped` | backend/src/daily_records/service.rs:124-156 | an unknown face is flagged for an employee iff it was seen in the window at a device this employee used in it |
| `RecomputeSweep.AbsentIsNotFlagged` | backend/src/daily_records/service.rs:124-156 | an employee without events is never flagged |
| `EventPairing.PairEvents` | backend/src/isapi/parser.rs:163-193 | the buffered loop computes the declarative pairs |
| `EventPairing.EveryAlertOnce` | backend/src/isapi/parser.rs:163-193 | one pair per payload, in order |
| `EventPairing.PairedInPlace` | backend/src/isapi/parser.rs:163-193 | at every position: a payload makes one pair between those of what stands before and behind it, with the first image between it and the next payload, if there is one |
| `EventPairing.BufferedKindMeans` | backend/src/isapi/parser.rs:37-49 | which parts the buffered reader takes for images and payloads, by header text and bytes |
| `EventPairing.StreamedKindMeans` | backend/src/isapi/stream.rs:173-190 | which parts the streaming reader does, by declared type and first bytes |
| `EventPairing.StreamIsOnTrack` | backend/src/isapi/stream.rs:150-208 | at every prefix, what was ingested and what is still owed make up all pairs |
| `EventPairing.StreamSession.Receive` | backend/src/isapi/stream.rs:160-201 | one part: what it completes is ingested, a failing ingest loses the pending payload |
| `EventPairing.StreamSession.Finish` | backend/src/isapi/stream.rs:204-208 | after a clean end exactly the pairs of all parts seen were ingested |
| `EventPairing.StreamedEqualsBuffered` | backend/src/isapi/stream.rs:150-208 | on every prefix both readers classify alike, streaming plus the final flush equals buffering |
| `EventPairing.ReadersAgreeExactly` | backend/src/isapi/stream.rs:173-190 | the two readers classify a part alike if and only if its label fits its first bytes, in four cases |
| `EventPairing.ReadersDisagree` | backend/src/isapi/parser.rs:37-49 | where they do not: a mislabelled payload, and one that opens with white space |
| `Multipart.SplitMultipart` | backend/src/isapi/parser.rs:119-156 | the loop computes the parts of the input, or stops where the header splitter panics |
| `Multipart.SplitHeaders` | backend/src/isapi/parser.rs:206-243 | the header splitter computes the specified split |
| `Multipart.ScanHeaderLines` | backend/src/isapi/parser.rs:228-242 | the walk over header lines stops at the first complete line that is none |
| `Multipart.PanicsExactly` | backend/src/isapi/parser.rs:228-239 | the slice runs backwards if and only if leading CRLFs were skipped, no payload opens there, there is no blank line, and the first complete line is no header |
| `Multipart.PanicHappens` | backend/src/isapi/parser.rs:228-239 | a segment of five bytes on which it panics, and that none shorter does |
| `Multipart.FindSubsliceMeans` | backend/src/isapi/parser.rs:300-307 | the first occurrence, if any; an empty needle is never found |
| `Multipart.UpToMeans` | backend/src/isapi/parser.rs:250-253 | the colon test of a header line looks at the first colon |
| `Multipart.TrimContent` | backend/src/isapi/parser.rs:133-141 | the longest prefix of the content that does not end in CR, LF or dash: everything cut off is one of the three |
| `Multipart.ReadSegment` | backend/src/isapi/parser.rs:131-148 | one segment yields one part, none, or a panic |
| `Utf8.ValidExactly` | backend/src/isapi/parser.rs:222-225 | a byte string passes as UTF-8 if and only if it is the concatenation of the encodings of Unicode scalar values |
| `MultipartRoundTrip.SplitInvertsPrint` | backend/src/isapi/parser.rs:119-156 | any list of parts printed in any mix of the three framings, closed or cut off, splits into the same parts, in order |
| `MultipartRoundTrip.PrintedPartsComeBack` | backend/src/isapi/parser.rs:119-156 | what the header text of each part that comes back is, byte by byte: of a well-formed UTF-8 block the printed bytes with 32 added exactly to those from 65 to 90, of an ill-formed one nothing |
| `MultipartRoundTrip.SegmentReadsBack` | backend/src/isapi/parser.rs:206-243 | one printed segment is read back as its part |
| `MultipartRoundTrip.ClosingYieldsNothing` | backend/src/isapi/parser.rs:134-144 | the closing delimiter yields no part |
| `CfgExpression.Parser.Parse` | scripts/check_db_write_queue.py:181-216 | the recursive-descent parser on its cursor computes the specified flags and consumption, on any tokens |
| `CfgExpression.Parser.ParseChildren` | scripts/check_db_write_queue.py:189-198 | the loop over children |
| `CfgExpression.Parser.SkipToSeparator` | scripts/check_db_write_queue.py:211-215 | the skipping loop stops at the next separator |
| `CfgExpression.ParseConsumesTree` | scripts/check_db_write_queue.py:181-216 | on the tokens of any cfg tree the parser consumes exactly that tree |
| `CfgExpression.FlagsAreSound` | scripts/check_db_write_queue.py:201-216 | with only the bare predicate taken for test: under every assignment with test false a tree takes a truth value only if its true flags allow it |
| `CfgExpression.FlagsAreExact` | scripts/check_db_write_queue.py:201-216 | on read-once trees a true flag that is up has an assignment that shows it |
| `CfgExpression.ReadTwiceIsInexact` | scripts/check_db_write_queue.py:201-216 | read-once is needed |
| `CfgExpression.ValuedTestIsMisread` | scripts/check_db_write_queue.py:216 | a predicate test = "x" is taken for the bare one, and is ignored although it can hold without test |
| `CfgExpression.MisreadingMayBeHarmless` | scripts/check_db_write_queue.py:216 | all(test, test = "x") is misread and ignored rightly |
| `CfgExpression.Matching` | scripts/check_db_write_queue.py:219-228 | the index of the closing bracket, or of the last token |
| `CfgExpression.IsTestOnlyCfg` | scripts/check_db_write_queue.py:231-238 | only cfg(...) is read, and its argument up to the matching parenthesis |
| `CfgExpression.AttributeReadsTree` | scripts/check_db_write_queue.py:231-238 | an attribute around any tree is decided by the tree's flags |
| `CfgExpression.TestOnlyMeans` | scripts/check_db_write_queue.py:231-238 | an ignored condition can never hold without test unless the flags forbid truth where the true flags allow it; on read-once trees that is exactly when it goes wrong, and likewise for a condition missed; without valued test predicates the flags are the true ones |
| `TestOnlyItems.ItemEnd` | scripts/check_db_write_queue.py:241-260 | the counting loop finds the specified end of an item |
| `TestOnlyItems.TestOnlyRanges` | scripts/check_db_write_queue.py:263-279 | the loop computes the specified ranges as text offsets, on any tokens |
| `TestOnlyItems.UncoveredIsKept` | scripts/check_db_write_queue.py:263-283 | the tokens outside the ranges are those a scan would keep that skips an item behind each test-only attribute |
| `TestOnlyItems.OutsideIsKept` | scripts/check_db_write_queue.py:282-283 | and the test by offsets says the same as the ranges, for tokens as the lexer places them |
| `TestOnlyItems.ScanFile` | scripts/check_db_write_queue.py:294-306 | the violations of a text are exactly the forbidden identifiers among the tokens kept |
| `TestOnlyItems.ReportedInPlace` | scripts/check_db_write_queue.py:294-306 | at every position: each of the three identifiers is reported once with its line and name, between the reports of what stands before and behind it, and nothing else is |
| `NestedScan.WalkIsKept` | scripts/check_db_write_queue.py:241-279 | on nested code the flat scan does what a walk over the nesting does, for any bracketed code and whatever follows it |
| `ProductionCode.ScanIsExact` | scripts/check_db_write_queue.py:263-279 | of a file whose gated elements have their true extent: the tokens scanned are exactly those outside the gated elements if and only if no gated element holds a semicolon or block before its last node, and its last node is one wherever production code or a closing bracket follows |
| `ProductionCode.ExactWalk` | scripts/check_db_write_queue.py:263-279 | the if, for any stretch of code |
| `ProductionCode.InexactDiffers` | scripts/check_db_write_queue.py:263-279 | the only if: some token is kept that is no production code, or lost that is, or the scan is still skipping where something follows |
| `ProductionCode.EarlyEndLeaks` | scripts/check_db_write_queue.py:241-260 | an element ended before its last node: some token of it is scanned |
| `ProductionCode.OpenItemLoses` | scripts/check_db_write_queue.py:241-260 | an element not ended in front of production code: some production token is not scanned |
| `ProductionCode.NothingGatedIsKept` | scripts/check_db_write_queue.py:263-279 | where no element is ended early, nothing but production code is scanned |
| `ProductionCode.NoProductionIsLost` | scripts/check_db_write_queue.py:263-279 | where every element has an end in itself and no further gate behind it, no production code is lost |
| `ScanExamples.FieldHidesFunction` | scripts/check_db_write_queue.py:241-260 | a gated struct field hides the forbidden call in the function behind the struct |
| `ScanExamples.ArmHidesArm` | scripts/check_db_write_queue.py:241-260 | a gated match arm hides the forbidden call in the arm behind it |
| `ScanExamples.ElseIsReported` | scripts/check_db_write_queue.py:241-260 | a forbidden call in the else of a gated if is reported, with no production code in the file |
| `RustLexer.Tokens` | scripts/check_db_write_queue.py:103-171 | the loop computes the specified tokens and ends on every text |
| `RustLexer.Lexeme` | scripts/check_db_write_queue.py:110-170 | one turn of it |
| `RustLexer.SkipQuoted` | scripts/check_db_write_queue.py:47-56 | quoted literals with escapes |
| `RustLexer.CharLiteralEnd` | scripts/check_db_write_queue.py:59-82 | character literals against lifetimes |
| `RustLexer.RawStringEnd` | scripts/check_db_write_queue.py:85-100 | raw strings by their hashes |
| `RustLexer.SkipBlockComment` | scripts/check_db_write_queue.py:122-137 | nested comments, and the lines they span |
| `RustLexer.TokensAreLocated` | scripts/check_db_write_queue.py:103-171 | of any text: every token is the piece it claims, on its line, and tokens do not overlap |
| `RustLexerRoundTrip.LexRecoversCode` | scripts/check_db_write_queue.py:103-171 | text rendered from identifiers, punctuation, apostrophes, strings, raw strings, characters, line comments and nested block comments, with white space only where two of them would fuse, lexes to exactly the code, with offsets and lines |
| `RustLexerRoundTrip.RenderedFileLexes` | scripts/check_db_write_queue.py:103-171 | the same for a whole file, texts and places |
| `RustLexerRoundTrip.BlankSeparates` | scripts/check_db_write_queue.py:110-170 | white space keeps any two pieces apart, but for an apostrophe |
| `RustLexerRoundTrip.PieceIsNext` | scripts/check_db_write_queue.py:110-170 | each kind of piece is the first lexeme if and only if it does not fuse with what follows |
| `RustLexerRoundTrip.SeparatesMeans` | scripts/check_db_write_queue.py:59-100 | when they fuse, in terms of the text: an identifier that goes on, r, br or cr before hashes and a quote, b or c before a quote, an apostrophe before what would be a character |
| `RustLexerRoundTrip.AsciiIsSane` | scripts/check_db_write_queue.py:139-170 | the character classes of the host language meet the assumptions on ASCII, the separators 0x1c to 0x1f included |

## Left out

- AdmitControl: describes a closing call only at a moment with room in the channel or with the worker gone, because the call waits without a deadline otherwise; the waiting is in the machine of `WriteQueue`.
- Admit: describes a call during whose pauses nobody else moves; other threads moving in between are in the machine of `WriteQueue`.
- SplitInvertsPrint: asks of the boundary that it is not empty, has no line feed and does not begin with a carriage return, which any boundary of section 5.1.1 of RFC 2046 meets and without which a delimiter could arise between the printed pieces; text before the first delimiter is not printed.
- TestOnlyMeans: where a condition mentions a predicate twice, only one direction is claimed; `ReadTwiceIsInexact` is a condition on which the other fails.
- ScanIsExact: asks that brackets pair up, that the file does not end in an attribute, and that a gated element neither stops at a hash nor has a further test-only attribute behind a semicolon or block of its own, and that attributes which gate nothing contain no gate.
- PushAuthorizedTarget: its panics are those of building the reader and of the device call; a panic anywhere else in an attempt is a step of the machine of `EnrollmentProtocol`.
- LexRecoversCode: literals and comments that the end of the file cuts off are not among the pieces.
- RequestsCoverTheShift: covers every day of the shift for fixed offsets and tolerances inside the dates only, as the lookup itself does.
- The unauthorized push path (`spawn_enrollment_pushes`, `push_one_device`) and backfill jobs: their cancellation deletes checkpoints without looking, so at-most-once is not claimed for them.
- `fail_enrollment_dispatch`, `reset_push_to_pending_queued`, `clear_device_operation` and other single-row updates used by that path.
- Steps of other services on the same tables during a run: employee and device deletion, admission of purges and backfills. Their checkpoints are part of recovery.
- Finalization of an enrolment whose last checkpoint was deleted before a crash: recovery has no checkpoint to find it by, and no claim is made.
- Checkpoint keys and states that do not parse: recovery stops at them.
- Error texts, timestamps, version counters, the department, shift-type and computed-at columns, the detail of anomalies.
- Partial effects inside one device call: creating the user and uploading the face count as one call.
- Failing cleanup of photo files and directory syncs, temporary files, and other processes writing below the photo root.
- A worker ended by the last sender being dropped, a failing rollback, and an abort of the process other than at the steps of the machines.
- Failures of the last-seen update in the stream loop, which end the session like a parse error.
- `parse_line_scan_fallback`, `boundary_of`, `boundary_in_body`: single searches that would add only easy members.
- Daylight-saving cases beyond `ResolveMeans`: which day a gap belongs to is a calendar question.
- The allow-list, the walk over directories and the command line of the writer check.
- HTTP handlers, digest authentication, XML and JSON decoding, JPEG handling, SQL text and serialization: plumbing over libraries.
- Leave, report, payroll and licence services, and the recompute worker's own loop.
