# SnerdMQ, modelled and verified in Dafny

SnerdMQ is a job queue daemon. Tasks are saved to an append-only log per shard; a
processor scans the live tasks every two seconds and pushes the due ones into priority
heaps; dispatcher threads pop them under concurrency permits and rate limits; executions
retry, reschedule, finish or dead-letter them. Several daemons share one queue directory
and divide its shards by leases in a membership file, each lease backed by a file lock.

This project models that behaviour and proves what it keeps. `dafny verify dfyconfig.toml`
checks everything.

| file | models |
|---|---|
| `Tasks.dfy` | the task record and its retry arithmetic in 32 bits |
| `Log.dfy` | the log as a value: replay, and compaction by its own, different rule |
| `FileStore.dfy` | the store: log, cache, counters, compaction, crashes around the rename |
| `ReplayCommand.dfy` | `snerdmq replay` |
| `Placement.dfy` | task copies in heaps, hands and executions, and the two id sets guarding them |
| `Scheduler.dfy` | one shard engine as a state machine whose threads interleave freely |
| `SchedulerSafety.dfy` | what every run keeps: exclusion, at-least-once |
| `SchedulerAccounts.dfy` | what orderly runs keep as well: partition, dedupe, retry accounts |
| `SchedulerContent.dfy` | what callers enqueue is what stays stored, executed and brought back |
| `SchedulerOutcomes.dfy` | how often a task is reported done |
| `SchedulerDrain.dfy` | pausing: a measure that every step of work shrinks |
| `SchedulerPoll.dfy` | what the shutdown poll misses, exactly; dispatcher counts |
| `SchedulerReplay.dfy` | what `replay` would bring back from an engine's log |
| `SchedulerWitness.dfy` | concrete runs showing where the weaker promises stop |
| `SnerdQueue.dfy` | the queue object in place, each method tied to the machine's steps |
| `RateLimiter.dfy` | the rate limiter in place, and its true bound |
| `WorkerPools.dfy` | semaphores shared by all engines of a process |
| `Membership.dfy` | the membership file: claims, leases, versions |
| `LeaseProtocol.dfy` | many daemons with skewed clocks, leases and file locks |
| `LeaseAgreement.dfy` | when membership and locks agree, orphaned claims, draining |
| `Runtime.dfy` | how one daemon claims, locks, renews and gives back its shards |
| `Adoption.dfy` | boot-time detection and migration by racing processes; routing |

## Two regimes for the scheduler

A scan reads its snapshot before it takes the locks under which it admits tasks
(src/queue.rs:255, src/queue.rs:267), so the machine has them as two steps. `PossibleRun`
allows everything: stale snapshots, reused ids, any compaction stamps, crashes, replays.
`AtLeastOnce` and `AtMostOneHandler` hold there. With reused ids one outcome answers for
every acceptance before it; `AtLeastOnceEachTime` is the sharper statement, with its exact
condition, and `ReusedIdVanishes` a run that misses it.

An `OrderlyRun` also asks that an enqueue use an id not used before and a retry count of
zero, that each task a scan is about to push equal the cached record, and that compaction
keep the log's meaning, for which `CompactionExact` gives the exact condition and increasing
clock readings suffice. It may crash and restart, but no `replay` runs between.
`ReplayRecoversExactly` also asks that tasks be enqueued without an error on them.
Partition, retry accounts, dedupe and "the safety nets are never used" hold there. For the snapshot condition this is exact: an admission keeps the accounts
if and only if it meets it (`OrderlyScanExact`). `StaleSnapshotGetsStuck` is a run that does
not and ends with a finished task's id left in `executing_tasks`; `StuckForGood` says it
stays there until the process ends.

## Where the code and its documentation disagree

- README.md:67 of the repository promises at most `max_per_minute` tasks in a rolling
  60-second window. The window is fixed: a minute can see 2L - 1 calls when every call
  passes the limit L, and 2L when limits differ. `RollingWindowExact`: the promise holds
  exactly for limits of at most one.
- src/main.rs:133 says a reverted claim keeps membership from ever disagreeing with the
  locks. `RevertLeavesLockedShardFree` is a run where a stalled owner is taken over, the
  challenger is refused the lock and reverts the entry to free, and the first engine goes on
  under its lock. `AgreementExact` says when the two agree at every point of a run: exactly
  when no claim takes over a lapsed entry that a live daemon still relies on. Where owners
  renew in time none does (`LeaseSafety`).
- A failed claim ends the whole acquisition and drops the locks taken so far, but leaves
  their claims in the file (`RefusalOrphansClaims`, `OrphanReached`).
- Compaction keeps the record parsed at the greatest clock reading, not the last one. On a
  tie it keeps the older record (`CompactionLosesUpdateOnTie`); `CompactionExact` says
  when exactly the meaning survives.
- src/main.rs:383 has `replay` recover failed tasks. `ReplayRecoversExactly` gives the exact
  set: a task that failed once and then succeeded is brought back (`LateSuccessIsReplayed`,
  `LateSuccessReached`),
  one dead-lettered on its first failure is not (`FirstFailureIsNotReplayed`), and none is
  once compaction has dropped its tombstone.
- `max_retries` of -2147483648 makes the guard `max_retries - 1` wrap in a release build,
  so that task is retried 2147483647 times (`GuardExact`).
- `add-shards` can wrap the 32-bit shard count in a release build (`ShardCountNeverFalls`,
  `ClaimsAreShards`).
- Shutdown polls `executing_tasks` for emptiness. A dispatcher between popping and starting
  a task is not seen by that poll (`EmptyExecutingIsNotDrained`); `PollExact` says in which
  states it is wrong.
- The same poll waits out its whole timeout when an execution has taken the early return,
  whose id never leaves `executing_tasks`: `DryExactly`.
- A daemon shutting down stops renewing, and its drain may last 30 s, while up to 10 s of the
  30 s lease have passed since the last renewal. `DrainKeepsEntry` says when it keeps its entry.

## Model

| member | source | states |
|---|---|---|
| SchedulerSafety.AtLeastOnce | src/queue.rs:447-519 | In every run, stale scans, crashes, compactions and replays included, an id ever accepted is live in the replay of the log on disk or has been reported won or out of retries at least once. |
| SchedulerSafety.AtLeastOnceEachTime | src/queue.rs:447-519 | With ids reused: at every point of a run each id accepted since its last reported outcome is live in the log, if and only if no tombstone is ever written for an id accepted again between the outcome and the tombstone. |
| SchedulerSafety.OwedStep | src/queue.rs:466-468 | One step loses an id still owed an outcome exactly when it writes such a tombstone. |
| SchedulerSafety.AtMostOneHandler | src/queue.rs:266-286 | In every run `queued` and `executing` are disjoint, an id is queued exactly when one copy of it is in a heap or a dispatcher's hand, at most one handler runs per id with its id in `executing`, and a copy about to start is not executing already. |
| SchedulerSafety.StepSafe | src/queue.rs:195-522 | Every step of every thread keeps the whole safety invariant, from any state satisfying it. |
| SchedulerSafety.AdmitAllAdds | src/queue.rs:271-285 | Admission only adds heap copies of tasks from the snapshot with `execute_at` and `retry_after_time` reached, undeleted, whose ids were neither queued nor executing; it removes nothing and leaves `executing` alone. |
| SchedulerAccounts.ScanPushesExactly | src/queue.rs:271-285 | In every run, stale snapshots included, a scan pushes exactly the snapshot's tasks with both times reached, undeleted, and with ids in neither set, each as the snapshot has it, and touches no other copy. |
| SchedulerSafety.RestartRebuilds | src/queue.rs:122-154 | In every run a process that dies loses heaps, id sets, completed entries and pause, and no live task; its successor has exactly the live tasks' hashes active. |
| SchedulerSafety.ReplayKeepsIds | src/main.rs:443-449 | Appending recovered tasks to the log loses no live id. |
| Placement.AdmitExclusive | src/queue.rs:272-284 | The scan's guard keeps one copy per id and the exact correspondence between copies and the two id sets. |
| Placement.StartExclusive | src/queue.rs:366-375 | The move from queued to executing keeps exclusion. |
| Placement.VacateExclusive | src/queue.rs:81-87 | The guard's drop keeps exclusion. |
| Placement.AbandonExclusive | src/queue.rs:401-407 | The early return keeps exclusion only by leaving the id behind. |
| Placement.DuplicateDropUnreachable | src/queue.rs:370-373 | The branch dropping a copy whose id is already executing is never taken. |
| SchedulerAccounts.EveryTaskInOnePlace | src/queue.rs:195-522 | In every orderly run each accepted task is in exactly one of idle, queued, executing, finished, dead-lettered, and the five counts add up to the number accepted. |
| SchedulerAccounts.DedupeHolds | src/queue.rs:203-213 | In every orderly run no two live tasks share a payload hash; the hash of every live task and of every queued or running copy is active, except an execution that has released its hash and not yet dropped its guard, whose hash is active only if another holds it; between half-done operations the active hashes are exactly the live ones. |
| SchedulerAccounts.RetriesAccounted | src/queue.rs:476-519 | In every orderly run a live task's stored retry count is its number of consecutive saved failures, heap and running copies equal the stored record, the ids out of retries are exactly those with a dead letter, and each was sent at exactly the task's dead-letter number. |
| SchedulerAccounts.SafetyNetsUnused | src/queue.rs:401-407 | In every orderly run a spawned execution is never found completed, a starting task never found executing, and no id is left behind in `executing_tasks`. |
| SchedulerAccounts.StepAccounted | src/queue.rs:195-522 | Every orderly step keeps all the accounts: copies agree with the store, every accepted id is booked once, hashes and retries are exact. |
| SchedulerAccounts.ScanExact | src/queue.rs:255-286 | From any accounted state, admitting a snapshot keeps all the accounts if and only if every task about to be pushed is the one the cache holds. |
| SchedulerAccounts.OrderlyScanExact | src/queue.rs:255-286 | After every orderly run the same equivalence holds for the next admission, however old its snapshot. |
| SchedulerContent.AcceptedIsStored | src/queue.rs:203-213 | An accepted enqueue appends the caller's task as given but for `deleted_at`; every other record means what it did. |
| SchedulerContent.ContentKept | src/queue.rs:195-522 | In every orderly run, retries, deferrals, cron ticks, compactions and restarts included, every live record, copy, tombstone and record `replay` would bring back has the type, data, retry settings, rate limit, urgency, hash, pool and cron its caller gave, a task without cron keeps its `execute_at`, and a dead letter counts the `max_retries` its caller gave. |
| SchedulerContent.StepKept | src/queue.rs:195-522 | Every orderly step keeps that. |
| SchedulerAccounts.EarlyReturnUnreachable | src/queue.rs:401-407 | In an accounted state a spawned execution's id is not in the completed set. |
| SchedulerAccounts.DuplicateDropped | src/queue.rs:203-210 | An enqueue is silently dropped if and only if a live task, a pending enqueue or an unfinished erasure holds its hash. |
| SchedulerAccounts.RetryBoundary | src/queue.rs:480 | With n failures saved, the retry branch is taken exactly when failure n + 1 is below the dead-letter number. |
| SchedulerAccounts.GuardExact | src/queue.rs:480 | The guard retries every failure below number max(1, max_retries) and no other, for all tasks and failures, if and only if max_retries is not the least 32-bit integer. |
| SchedulerOutcomes.RepeatsExactly | src/queue.rs:447-519 | In every orderly run an execution about to be reported a success or out of retries is of a task with an earlier outcome if and only if a crash has caught the task between an earlier outcome and its tombstone. |
| SchedulerOutcomes.RunIsTraced | src/queue.rs:447-519 | In all runs every id with an outcome is closed in the log, was caught by a crash, or is about to get its tombstone. |
| SchedulerOutcomes.SuccessRepeats | src/queue.rs:466-468 | A reachable run: a success, a crash before the tombstone, and the task's handler runs again. |
| Tasks.BackoffTruncates | src/task.rs:166 | The backoff in seconds is the one whole number between zero and the asked time that is nearest to it. |
| SchedulerDrain.DrainTerminates | src/main.rs:235-259 | From any safe paused state, whatever the processor was doing, an engine takes at most as many more processor, dispatcher and execution steps as there is total work, however its threads interleave. |
| SchedulerDrain.PausedStep | src/queue.rs:249-310 | While paused each processor, dispatcher or execution step strictly shrinks the total work and no other step changes it; only a snapshot already read is still admitted. |
| SchedulerDrain.DryExactly | src/main.rs:248-259 | In all runs: when an engine has no work left, or no dispatcher or execution can take a step, `executing_tasks` is empty if and only if no execution of the process has taken the early return. |
| SchedulerDrain.SticksExactly | src/queue.rs:401-413 | Within a process ids are only added to those left behind, and one is added exactly when an execution takes the early return. |
| SchedulerDrain.NoWorkNoCopies | src/main.rs:226-233 | In every safe state with no work left the scan is idle, no copy remains, nothing is queued, and what is in `executing_tasks` is what early returns left there. |
| SchedulerDrain.NoWorkNothingExecuting | src/main.rs:226-233 | In an accounted state with no work left that is nothing: both id sets are empty. |
| SchedulerDrain.DrainedIsStuck | src/main.rs:250-253 | In every safe state where no dispatcher or execution can take a step, `executing_tasks` holds exactly what early returns left there. |
| SchedulerDrain.DrainedIsEmpty | src/main.rs:250-253 | In an accounted state where no dispatcher or execution can take a step, `executing_tasks` is empty. |
| SchedulerDrain.ExecutionCanStep | src/queue.rs:400-522 | No execution is ever blocked: whatever phase it is in, it has a next step. |
| SchedulerDrain.PausedForGood | src/queue.rs:249-258 | `paused` never becomes false within a process, and at most the one scan that had already read its snapshot still admits. |
| SchedulerPoll.PollExact | src/main.rs:250-253 | In every run, when an engine is paused with `executing_tasks` empty, some continuation of the process still starts an execution if and only if a task is in a dispatcher's hand past the pop and not refused, or in a heap some dispatcher will look at or be started for, or live in a snapshot being scanned and in no heap. |
| SchedulerPoll.PoisedStarts | src/queue.rs:263-382 | From each such state a run of the processor and dispatchers starts an execution. |
| SchedulerPoll.StaysUnpoised | src/queue.rs:263-397 | From any other, every step keeps `executing_tasks` empty and the engine unable to start anything. |
| SchedulerPoll.AtMostTwoDispatchers | src/queue.rs:289-320 | In every run a pool's dispatcher counter equals its dispatcher threads, wherever in their loop, and is at most two. |
| SchedulerReplay.ReplayRecoversExactly | src/main.rs:428-441 | In every orderly run `replay` would bring back exactly the closed tasks of the type with a saved failure since enqueue or last cron success whose tombstone is still in the log. |
| SchedulerReplay.StepTold | src/queue.rs:447-519 | Every orderly step keeps it true that an id's last record carries an error exactly when the id has a saved failure. |
| SchedulerReplay.FirstFailureIsNotReplayed | src/queue.rs:513 | A reachable state has a dead-lettered task that no `replay` brings back. |
| SchedulerReplay.LateSuccessIsReplayed | src/queue.rs:468 | In every accounted state whose last records tell of failures as `StepTold` keeps them, the tombstone of a success after a saved failure is one that `replay` brings back. |
| SchedulerReplay.LateSuccessReached | src/queue.rs:468 | A run of two attempts reaches such a finished task. |
| SchedulerWitness.StaleSnapshotGetsStuck | src/queue.rs:255-286 | A reachable run re-admits a finished task from a stale snapshot and leaves its id in `executing_tasks` with no copy of it anywhere. |
| SchedulerWitness.StuckForGood | src/queue.rs:401-407 | An id left behind by the early return stays in `executing_tasks` through every step until the process ends. |
| SchedulerWitness.ReusedIdVanishes | src/queue.rs:466-468 | A reachable run accepts an id again between its outcome and its tombstone; the new acceptance is owed an outcome and is nowhere in the log. |
| SchedulerWitness.EmptyExecutingIsNotDrained | src/main.rs:250-253 | A reachable paused state has `executing_tasks` empty while the next dispatcher step starts a handler. |
| Queue.SnerdQueue.constructor | src/queue.rs:122-154 | A new engine's active hashes are exactly those of the live tasks; everything else is empty. |
| Queue.SnerdQueue.Enqueue | src/queue.rs:195-222 | Rejected exactly when paused, dropped exactly when the hash is active, both without effect; otherwise the given task, undeleted, is saved and cached and its hash active. |
| Queue.EnqueueIsTwoSteps | src/queue.rs:195-222 | An accepted enqueue is the machine's check and save steps in that order, whichever request it is. |
| Queue.SnerdQueue.ReadSnapshot | src/queue.rs:249-258 | The snapshot step, or nothing while paused. |
| Queue.SnerdQueue.AdmitDue | src/queue.rs:263-286 | The loop over the snapshot is the machine's admission step, which `ScanPushesExactly` states on the tasks' fields, pools fed included. |
| Queue.SnerdQueue.AdmitOne | src/queue.rs:272-284 | One task is pushed, and its id queued, exactly when `execute_at` and `retry_after_time` have come, it is not deleted, and its id is neither executing nor queued. |
| Queue.SnerdQueue.StartDispatchers | src/queue.rs:289-310 | Exactly the fed pools with heap copies and fewer than two dispatchers get one more. |
| Queue.SnerdQueue.HighestInHeap | src/queue.rs:337-344 | The popped copy is in the pool's heap and none there is more urgent; nothing only when the heap is empty. |
| Queue.SnerdQueue.PopOrExit | src/queue.rs:336-346 | The pop step, or the dispatcher's exit exactly when its heap is empty. |
| Queue.SnerdQueue.DispatchNext | src/queue.rs:329-390 | One turn of the dispatcher. The limiter's file changes, in the group's window alone, exactly when the popped task has both group and limit; such a task passes only if its window counts it within its limit, and is refused only if the window is full; any other task passes. A task that passes starts unless its id is executing, a refused one is put off. |
| Queue.SnerdQueue.Defer | src/queue.rs:353-360 | A refused task is saved a minute later and leaves `queued`, its permit returned. |
| Queue.PutOffIsThreeSteps | src/queue.rs:353-360 | The refusal is the machine's deny, save and remove steps in that order. |
| Queue.SnerdQueue.ExecuteTask | src/queue.rs:400-522 | A whole execution is the machine's steps for the handler's answer; its copy goes, and its id leaves `executing` exactly when it was not in the completed map. |
| Queue.SnerdQueue.TakeAnswer | src/queue.rs:447-521 | After the handler answers: reschedule, conclude, retry or dead-letter, by the guards of the code. |
| Queue.SnerdQueue.Conclude | src/queue.rs:466-474 | Completed set, tombstone, hash, guard, in that order. |
| Queue.ExecutionOutcome | src/queue.rs:447-519 | From any accounted state an execution leaves no copy and no executing id. A cron task stays live with the next tick as `execute_at`, count 0 and no error; a success or final failure leaves record and hash gone and the id completed from now; failure number n retries if and only if n is below the dead-letter number, and then the record has one failure more, this error, and a retry time now plus the backoff cut to whole seconds. |
| Queue.RetryPushedExactly | src/task.rs:162-181 | After a failure with retries left, and any orderly run of scans before its backoff, a scan at `at` pushes the task if and only if its `execute_at` has come and n seconds have passed since the failure, n being the asked hours in whole seconds, cut toward zero. |
| Queue.FailedTaskWaits | src/task.rs:166-167 | Until then, restarts included, the task stays live as saved and has no copy in memory. |
| Queue.CronPushedExactly | src/queue.rs:450-462 | A cron task that succeeded is pushed again if and only if its next tick has come, and the retry time it was saved with before. |
| Queue.RefusedPushedExactly | src/queue.rs:353-360 | After a rate-limit refusal, and any orderly run of scans within the minute, a scan pushes the task if and only if its `execute_at` has come and sixty seconds have passed. |
| Queue.RefusedTaskWaits | src/queue.rs:354-357 | Until then, restarts included, the task stays live as saved and has no copy in memory. |
| SchedulerAccounts.WaitsItsTime | src/queue.rs:272-274 | Along every orderly run whose scans are all before its `execute_at` or `retry_after_time`, a live task without a copy keeps its record and gets no copy. |
| SchedulerAccounts.AcceptedTaskWaits | src/queue.rs:212-213 | A newly accepted task has no copy along any orderly run whose scans are all before its `execute_at`. |
| Queue.SnerdQueue.EvictExpiredCompleted | src/queue.rs:77-79 | Exactly the completed entries younger than a minute are kept. |
| Log.ReplayKeepsLast | src/file_store.rs:52-66 | Replay keeps, for each live id, the record of its last line. |
| Log.ReplayConcat | src/file_store.rs:52-66 | The meaning of a log composes over concatenation. |
| Log.CompactionKeepsIds | src/file_store.rs:211-223 | For every stamp assignment, ties and backward clocks included, compaction keeps exactly the live ids. |
| Log.CompactionKeepsWinner | src/file_store.rs:206-224 | For each live id compaction keeps the earliest of the most recently parsed live lines after its last tombstone. |
| Log.CompactionExact | src/file_store.rs:201-224 | Compaction preserves the log's meaning if and only if, for every live id, that line and the last line carry the same record. |
| Log.CompactionPreservesMeaning | src/file_store.rs:215-219 | Strictly increasing stamps per id suffice. |
| Log.CompactionLosesUpdateOnTie | src/file_store.rs:217-219 | Two saves parsed at one clock reading compact to the older record. |
| Log.WrittenReplays | src/file_store.rs:226-229 | The rewritten file, in any order, replays to the map it was written from and has that many live lines. |
| Log.CompactedLogReplays | src/file_store.rs:201-243 | The compacted log, in any order, replays like the original under every sequence of later appends if and only if compaction keeps the meaning. |
| FileStore.RunConsistent | src/file_store.rs:36-250 | Through every sequence of saves, deletes, compactions, crashes on either side of the rename and reopenings, the cache is the replay of the log and the two counters count its live and tombstone lines. |
| FileStore.CountsExact | src/file_store.rs:52-70 | The counts are the numbers of live lines, tombstone lines and records. |
| FileStore.PerformConsistent | src/file_store.rs:231-243 | Compaction, finished or cut short, and reopening change no live id. |
| FileStore.CompactedConsistent | src/file_store.rs:201-243 | After compaction cache and counters match the new file, the live ids are unchanged, and the cache is unchanged if and only if compaction keeps the log's meaning. |
| FileStore.TaskFile.constructor | src/file_store.rs:22-34 | Opening yields the replay and the three counts of the file. |
| FileStore.TaskFile.RebuildMetadata | src/file_store.rs:36-73 | The loop computes the replay and the live, tombstone and record counts. |
| FileStore.TaskFile.SaveTask | src/file_store.rs:82-127 | One line appended; cache and counters follow; consistency kept. |
| FileStore.TaskFile.SaveAndCheck | src/file_store.rs:119-177 | A save starts a compaction exactly for a large file, for more than half as many tombstones as live lines, or from the ten-thousandth append. |
| FileStore.TaskFile.ReadTasks | src/file_store.rs:129-132 | Each cached task once, in no particular order. |
| FileStore.TaskFile.DeleteTask | src/file_store.rs:139-157 | A tombstone of the cached record for a live id, otherwise nothing. |
| FileStore.TaskFile.CompactLog | src/file_store.rs:179-250 | The loop keeps the compaction winners; file, cache and counters are rewritten together; nothing while already compacting or without a file. |
| ReplayCommand.ReplayAddsExactlyTheFailed | src/main.rs:413-450 | One run adds exactly the ids whose last record is a tombstone with an error and of the type, each with the same content, due now, count 0, no error and undeleted, leaves every other task unchanged, and a second run finds nothing. |
| ReplayCommand.LatestIsLast | src/main.rs:418-426 | The latest record of an id is its last line. |
| ReplayCommand.LatestAgreesWithReplay | src/main.rs:418-426 | The live tasks of a log are the ids whose latest record is no tombstone. |
| ReplayCommand.ReplayShard | src/main.rs:404-451 | The command's loops append those tasks to the shard's log and count them; a missing log is skipped. |
| RateLimiting.RateLimiter.CheckAndIncrement | src/rate_limiter.rs:27-79 | The verdict and the group's new window; no other group changes. |
| RateLimiting.CountsSinceOpener | src/rate_limiter.rs:56-69 | For calls at any times, the clock going back included: a call is allowed if and only if fewer than its limit have been allowed since the call that opened its window, the first a full minute or more after the one that opened the window before; the stored window is that call's time and that count. |
| RateLimiting.AtMostTwice | src/rate_limiter.rs:56-69 | For calls in time order with limits of at most L, every half-open minute sees at most 2L allowed calls. |
| RateLimiting.AtMostTwiceLessOne | src/rate_limiter.rs:56-69 | With one limit L for all calls the bound is 2L - 1. |
| RateLimiting.GroupsIndependent | src/rate_limiter.rs:56-69 | However requests of many groups mix in one file, each group's window and verdicts are those of its own calls alone. |
| RateLimiting.GroupAtMostTwice | src/rate_limiter.rs:56-69 | In any such mix at most 2L requests of a group with limits of at most L pass in a minute. |
| RateLimiting.DispatchesAtMostTwice | src/queue.rs:349-363 | In every sequence of dispatcher turns of a shard, other groups and unlimited tasks between them, at most 2L of the tasks that name the group and any limit, none above L, pass in a minute. |
| RateLimiting.BoundsReached | src/rate_limiter.rs:61-69 | Both bounds are attained for every L of at least one. |
| RateLimiting.RollingWindowExact | src/rate_limiter.rs:61-69 | At most L calls in any minute holds for all callers passing L if and only if L is at most one. |
| WorkerPools.WorkerPoolManager.constructor | src/queue.rs:24-54 | A repeated pool name takes its last count, malformed parts are ignored, and a default pool always exists. |
| WorkerPools.StepConserves | src/queue.rs:324-388 | Each step keeps available plus held permits equal to every semaphore's capacity. |
| WorkerPools.ExecutionsWithinCapacity | src/queue.rs:324-388 | In every run the executions of all engines whose pool is the semaphore's, or for the default one is not configured, never exceed its capacity. |
| Membership.ShardKeyInjective | src/membership.rs:83-85 | Distinct shards have distinct names. |
| Membership.ShardNames | src/membership.rs:83-85 | The names on disk: `shard-` and the decimal index. |
| Membership.SkewMargin | src/membership.rs:101-106 | Five seconds when absent or unparsable, never negative, otherwise the seconds given. |
| Membership.ClaimableExact | src/membership.rs:115-128 | The claimable shards are exactly those of the queue that have no entry, the owner's own, or one past its expiry by more than the margin, each once. |
| Membership.OthersUntouched | src/membership.rs:208-298 | Another owner's entry changes only by a takeover after it lapsed on the claimer's clock. |
| Membership.VersionIdentifies | src/membership.rs:340-348 | In every history the version never falls and points of equal version have equal membership. |
| Membership.ShardCountNeverFalls | src/main.rs:284-292 | `add-shards` keeps the count from falling if and only if the sum fits in 32 bits. |
| Membership.MembershipStore.Init | src/membership.rs:163-174 | Creates version 0 without claims exactly when no file exists; otherwise fails without effect. |
| Membership.MembershipStore.Claim | src/membership.rs:208-255 | Succeeds exactly when the shard has no entry, the caller's own, or one past its expiry by more than the margin; then the entry is the caller's for thirty seconds and the version one higher; a refusal leaves the file alone. |
| Membership.MembershipStore.RevertClaim | src/membership.rs:260-269 | Drops the entry only if still the caller's; bumps the version either way. |
| Membership.MembershipStore.RenewLease | src/membership.rs:273-284 | Succeeds exactly for the entry's owner; otherwise LeaseLost without effect. |
| Membership.MembershipStore.ReleaseClaim | src/membership.rs:288-298 | Drops the entry exactly for its owner; otherwise LeaseLost without effect. |
| Membership.MembershipStore.GrowShards | src/main.rs:276-303 | The count grows in 32 bits and the version by one; claims stay. |
| LeaseProtocol.OneEnginePerShard | src/main.rs:114-143 | In all runs, crashes, takeovers, zombie claims and replays included, two daemons never run engines on one shard and every engine holds its shard's lock. |
| LeaseProtocol.LocksExactly | src/sharding.rs:160-189 | In all runs a daemon holds the lock of exactly the shards it runs or has locked to run, and a dead one holds none. |
| LeaseProtocol.BeatExactly | src/main.rs:607-615 | A heartbeat pauses an engine exactly when its entry is gone or another's; otherwise the lease is renewed for thirty seconds. |
| LeaseProtocol.StopExactly | src/main.rs:236-247 | Shutting down pauses every engine and keeps entries and locks. |
| LeaseProtocol.ReleaseExactly | src/main.rs:261-270 | A daemon shutting down gives back its own entry and no other, and its lock stays. |
| LeaseProtocol.StepLocks | src/sharding.rs:169-189 | Every step keeps each daemon holding the locks of its engines and of the shards it is acquiring. |
| LeaseProtocol.ClaimsAreShards | src/membership.rs:115-128 | In all runs the shard count never falls if and only if no `add-shards` wraps it; then every claim is for a shard below the count, load and claim being separate steps. |
| LeaseProtocol.LeaseSafety | src/main.rs:602-619 | For each daemon by itself: when it renews in time and no clock is ahead of its own by more than the margin, then whatever the others do no claim takes over an entry it relies on, its heartbeat never loses a lease, none of its engines is paused, and each has its shard claimed and locked by it - throughout, or until it begins to shut down if its own drain may outlast its lease. |
| LeaseProtocol.LiveLeaseNotLapsed | src/membership.rs:96-98 | While a running daemon renews in time and is entitled to its leases, none of them is lapsed for any clock reading of another, however stale. |
| LeaseProtocol.StepEntitled | src/membership.rs:208-298 | Every step of any daemon keeps a timely daemon's entitlement to its leases. |
| LeaseProtocol.RevertLeavesLockedShardFree | src/main.rs:131-139 | A reachable state has a shard free in membership while an unpaused engine holds its lock. |
| LeaseAgreement.AgreementExact | src/main.rs:131-139 | In all runs, every live daemon owns in membership each shard it runs, has locked or is about to lock, at every point, if and only if no claim takes over a lapsed entry of a shard another live daemon relies on. |
| LeaseAgreement.AgreeStep | src/membership.rs:238-248 | One step breaks that agreement exactly when it meets the guard of the takeover branch on such a shard. |
| LeaseAgreement.OrphansExactly | src/main.rs:124-128 | A claim leaves a shard claimed by the daemon with neither lock nor acquisition exactly when it is refused and the shard was locked earlier in the acquisition and is still the daemon's. |
| LeaseAgreement.RefusalOrphansClaims | src/main.rs:124-128 | Under agreement a claim orphans something exactly when it is refused after a lock was taken, and then every shard locked so far stays claimed, unlocked and unrun. |
| LeaseAgreement.OrphanReached | src/main.rs:114-143 | A reachable run of two daemons on two shards ends so. |
| LeaseAgreement.DrainKeepsEntry | src/main.rs:592-596 | A draining daemon, which no longer renews, keeps an entry unchanged if and only if no claim of another meets the takeover guard on it. |
| LeaseAgreement.DrainWithinLease | src/main.rs:248-268 | It does so for as long as clocks stay within the margin and its own has not passed the expiry it last wrote. |
| Runtime.Daemon.TakeShard | src/main.rs:124-140 | A shard is owned and locked, or its claim is reverted when the lock was held; a refusal changes nothing. |
| Runtime.Daemon.AcquireShards | src/main.rs:114-143 | In order, a prefix of the candidates is tried; exactly those not locked before are locked and owned, the rest left unowned, other entries unchanged; it stops only at the maximum or the end. When a claim is refused no lock is kept, but the entries of those tried before stay as they are. |
| Runtime.Daemon.StandbyTick | src/main.rs:629-655 | Nothing while shutting down or running engines; otherwise every claimable shard nobody has locked is started, unless the maximum is reached or a claim refused; every engine started is newly locked and owned. Failover: when every shard's entry is free, own or past its expiry by more than the margin at every reading, no lock is held and the maximum allows, every shard of the queue is started. |
| Runtime.Daemon.Heartbeat | src/main.rs:592-621 | The unpaused engines still owned get new leases, the unpaused ones lost are paused, every other entry and engine is left alone. |
| Runtime.Daemon.ShutDown | src/main.rs:236-270 | Every engine is paused and exactly the owner's claims on its engines are given back. |
| Runtime.AcquiredOneMore | src/main.rs:120-141 | One turn of the loop extends that account by one shard. |
| Adoption.AdoptionSafe | src/sharding.rs:78-158 | In every race of booters, deaths between any two file operations included, the legacy tasks are at exactly one of the two paths, successful booters agree on the count, and it covers `shard-0` if all asked for at least one shard. |
| Adoption.MembershipOnce | src/membership.rs:163-174 | Once membership exists no booter replaces it. |
| Adoption.CountIsFounded | src/sharding.rs:138-156 | In every race the shard count is one that some booter asked for, or 1 when a legacy log was there. |
| Adoption.StepSound | src/sharding.rs:138-156 | Every file operation of every booter keeps the boot invariant. |
| Adoption.QueueDirectory.MigrateLegacy | src/sharding.rs:78-117 | Log and lock move together, refused without effect while a legacy daemon holds the lock. |
| Adoption.QueueDirectory.InitMembership | src/membership.rs:163-174 | One-shot creation by temp file and rename. |
| Adoption.QueueDirectory.ResolveLayout | src/sharding.rs:121-158 | Membership is authoritative; a legacy log becomes a one-shard queue; an empty directory gets the shards asked for; a refusal changes nothing. |
| Adoption.HashBytes | src/sharding.rs:48-55 | The loop computes 64-bit FNV-1a. |
| Adoption.Vectors | src/sharding.rs:48-55 | The published FNV-1a vectors of the empty string, `a` and `ab`. |
| Adoption.RouteShard | src/sharding.rs:59-63 | The chosen shard is an owned one, determined by the id's hash and the owned list. |

## Left out

- File errors: writes succeed. (A failing save in `enqueue` would leave the hash active; the
  queue discards save errors elsewhere.) Torn half-written lines are not modelled; blank and
  unparsable lines are.
- Wall clocks, file sizes and cron schedules are parameters: any clock reading, any next tick.
- JSON text: serialization is exact but for `created_at` and `updated_at`, which the log does
  not hold; compaction's `updated_at` is a free stamp per line. The fields `auto_dedupe`,
  `webhook_url`, `max_execution_seconds` and `trigger_after_ids` are not part of the record.
- xxh64: a payload hash is given on the task.
- Binary heap internals: `SnerdQueue` keeps all its heaps as one map of numbered copies, and a
  pop takes one of greatest urgency in its pool. Urgencies and hours are reals; NaN and infinities are not modelled.
- Semaphores and task permits have their own machine in `WorkerPools.dfy`; the scheduler
  machine lets a waiting dispatcher get a permit at any time.
- `mark_deleted` and `update_retry_config` are functions on the record, which the program
  clones before it changes it.
- Some adjacent sections are one step: the paused test with the enqueue's hash check or with
  the scan's snapshot, a deletion's cache read with its save, and the move from `queued` to
  `executing`, whose second lock is taken under the first.
- The processor's heap-length test and counter test are one step; the program makes them in
  two locked sections.
- Owner ids are distinct. The program falls back to `unknown-host@pid-N` when no host name is
  set; a second daemon with the same id would renew the first one's entries and revert them.
- One processor thread per engine, as the program starts it.
- `replay` between orderly runs: it can revive a task whose hash another live task holds by
  then, so the orderly accounts exclude it. `AtLeastOnce` and `AtMostOneHandler` include it.
- The version number is unbounded; wrap at 64 bits is not modelled.
- `update_retry_config` when the count is the greatest 32-bit integer: the guard before it
  never lets that happen.
- The rate-limit file wiped by a crash between its truncation and its rewrite.
- Building an engine and its handlers: `StandbyTick` lists the shard as running.
- In `LeaseProtocol` the shutdown flag and the pausing of all engines are one step, and
  heartbeat errors other than a lost lease and failures of `start_engines` do not occur.
- A legacy daemon writing to the log during its adoption; the lock probe is a parameter.
- The drain timeout and its polling loop: what is proved is the drain itself.
- Webhooks, HTTP, task handlers and their timeouts: a handler gives any answer or none.
- The stdin/stdout protocol, metrics, `validate`, and `init` on the command line.
- FIFO order among equal urgencies, and a promise that a non-empty heap always has a
  dispatcher: the program gives neither.
