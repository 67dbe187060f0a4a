/** What also holds when callers use fresh ids, a scan's snapshot is current for the
    tasks it admits, and compaction keeps the log's meaning: every accepted task is
    in exactly one place, retries and payload hashes are accounted for. */
module SchedulerAccounts {
  import opened Tasks
  import opened Log
  import opened FileStore
  import opened Placement
  import opened Scheduler
  import opened SchedulerSafety

  ghost predicate Fresh(s: State, id: TaskId) {
    id !in s.hist.accepted && forall r | r in s.dedupe.pending :: s.dedupe.pending[r].id != id
  }

  /** Every task the scan is about to push is the one the cache holds now. */
  ghost predicate CurrentScan(s: State, tasks: seq<Task>, now: Time) {
    forall t | t in tasks && Due(t, now) && t.id !in s.places.executing && t.id !in s.places.queued ::
      t.id in s.store.cache && s.store.cache[t.id] == t
  }

  ghost predicate Orderly(s: State, step: Step)
    requires Enabled(s, step)
  {
    match step
    case Enqueue(EnqueueCheck(req, task)) => Fresh(s, task.id) && task.retryCount == 0
    case Process(ScanAdmit(now)) => CurrentScan(s, s.scan.tasks, now)
    case Outside(CompactLog(stamps, order)) => KeepsMeaning(Lines(s.store), stamps)
    case Outside(CrashAndReplay(_, _, _)) => false
    case _ => true
  }

  ghost predicate OrderlyRun(s: State, steps: seq<Step>)
    decreases |steps|
  {
    steps == [] ||
    (Enabled(s, steps[0]) && Orderly(s, steps[0]) && OrderlyRun(Next(s, steps[0]), steps[1..]))
  }

  // ---- The accounts ----

  predicate RecordGone(p: Phase) { p.Erased? || p.Gone? }

  /** Each copy is the stored record, until the record is erased. */
  ghost predicate CopiesAgree(cache: Live, pl: Places) {
    forall e | e in pl.copies ::
      var t := pl.copies[e].task;
      if RecordGone(pl.copies[e].phase) then t.id !in cache else t.id in cache && cache[t.id] == t
  }

  ghost predicate Ledger(cache: Live, pl: Places, completed: map<TaskId, Time>, pending: map<nat, Task>, h: History) {
    && h.accepted == cache.Keys + h.finished + h.dead
    && cache.Keys !! h.finished && cache.Keys !! h.dead && h.finished !! h.dead
    && (forall e | e in pl.copies :: pl.copies[e].task.id in h.accepted)
    && completed.Keys <= h.accepted
    && (forall r | r in pending :: pending[r].id !in h.accepted && pending[r].retryCount == 0)
    && (forall q, r | q in pending && r in pending && pending[q].id == pending[r].id :: q == r)
    && pl.stuck == {}
  }

  ghost predicate IsRecorded(pl: Places, e: Entry, id: TaskId) {
    e in pl.copies && pl.copies[e].task.id == id && pl.copies[e].phase.Recorded?
  }

  /** A completed id that is still live is one whose execution is about to erase it. */
  ghost predicate CompletedLeaving(cache: Live, pl: Places, completed: map<TaskId, Time>) {
    forall id | id in completed && id in cache :: exists e :: IsRecorded(pl, e, id)
  }

  /** `n` saved failures, none of them past the point of no retry. */
  predicate RetryFits(t: Task, n: nat) {
    t.retryCount == n && (n == 0 || n <= Wrap32(t.maxRetries - 1))
  }

  ghost predicate RetriesCounted(cache: Live, h: History) {
    && (forall id | id in cache :: id in h.failures && RetryFits(cache[id], h.failures[id]))
    && (forall d | d in h.deaths :: d.failure == DeadLetterNumber(d.maxRetries))
  }

  /** What may hold a payload hash: a live task, an enqueue between check and save, or an
      execution between tombstone and release. */
  datatype Holder = OfLive(id: TaskId) | OfPending(req: nat) | OfErased(e: Entry)

  function HashAt(s: State, a: Holder): Option<Hash> {
    match a
    case OfLive(id) => if id in s.store.cache then s.store.cache[id].payloadHash else None
    case OfPending(r) => if r in s.dedupe.pending then s.dedupe.pending[r].payloadHash else None
    case OfErased(e) => if In(s, e, Erased) then TaskOf(s, e).payloadHash else None
  }

  /** `active_hashes` is exactly the set of held hashes, and no two hold the same one. */
  ghost predicate HashesHeld(s: State) {
    && (forall a | HashAt(s, a).Some? :: HashAt(s, a).value in s.dedupe.active)
    && (forall h | h in s.dedupe.active :: exists a :: HashAt(s, a) == Some(h))
    && (forall a, b | HashAt(s, a).Some? && HashAt(s, a) == HashAt(s, b) :: a == b)
  }

  ghost predicate Books(s: State) {
    && CopiesAgree(s.store.cache, s.places)
    && Ledger(s.store.cache, s.places, s.completed, s.dedupe.pending, s.hist)
    && CompletedLeaving(s.store.cache, s.places, s.completed)
    && RetriesCounted(s.store.cache, s.hist)
    && HashesHeld(s)
  }

  ghost predicate Accounted(s: State) {
    Safe(s) && Books(s)
  }

  lemma InitialAccounted()
    ensures Accounted(Initial)
  {
    InitialSafe();
  }

  // ---- Retry arithmetic ----

  /** With n failures saved, the next one is final exactly when it is number
      `DeadLetterNumber`. */
  lemma RetryBoundary(t: Task, n: nat)
    requires RetryFits(t, n)
    ensures n + 1 <= DeadLetterNumber(t.maxRetries)
    ensures RetryAllowed(t) <==> n + 1 < DeadLetterNumber(t.maxRetries)
  {
    if t.maxRetries == INT32_MIN {
      assert Wrap32(t.maxRetries - 1) == 0x7fff_ffff;
    } else {
      assert Wrap32(t.maxRetries - 1) == t.maxRetries - 1;
    }
  }

  predicate GuardIsMax(t: Task, n: nat) {
    RetryAllowed(t) <==> n + 1 < (if t.maxRetries > 1 then t.maxRetries else 1)
  }

  /** The guard of the code retries every failure below number `max(1, max_retries)` and
      no other, whatever the task and its failures, exactly when `max_retries` is not the
      least 32-bit integer, where the guard's subtraction wraps. */
  lemma GuardExact(maxRetries: Int32)
    ensures (forall t: Task, n: nat | t.maxRetries == maxRetries && RetryFits(t, n) :: GuardIsMax(t, n))
      <==> maxRetries != INT32_MIN
  {
    if maxRetries == INT32_MIN {
      var t := Task("", "", "", maxRetries, 0, 0.0, 0, None, None, None, None, None, None, None, 0, None, None);
      RetryBoundary(t, 0);
      assert RetryFits(t, 0) && !GuardIsMax(t, 0);
    } else {
      forall t: Task, n: nat | t.maxRetries == maxRetries && RetryFits(t, n) ensures GuardIsMax(t, n) {
        RetryBoundary(t, n);
      }
    }
  }

  // ---- Steps of one copy ----

  lemma HashesFrame(s: State, s': State)
    requires HashesHeld(s) && s'.dedupe.active == s.dedupe.active
    requires forall a :: HashAt(s', a) == HashAt(s, a)
    ensures HashesHeld(s')
  {
    forall h | h in s'.dedupe.active ensures exists a :: HashAt(s', a) == Some(h) {
      var a :| HashAt(s, a) == Some(h);
      assert HashAt(s', a) == Some(h);
    }
  }

  ghost predicate SameBooks(h: History, h': History) {
    h'.accepted == h.accepted && h'.finished == h.finished && h'.dead == h.dead
  }

  /** Only the copy e changes, keeping its id. */
  ghost predicate Moved(pl: Places, pl': Places, e: Entry, t: Task, phase: Phase) {
    && e in pl.copies && t.id == pl.copies[e].task.id
    && pl'.copies == pl.copies[e := Copy(t, phase)] && pl'.stuck == pl.stuck
  }

  lemma MoveCopies(cache: Live, pl: Places, pl': Places, e: Entry, t: Task, phase: Phase)
    requires Exclusive(pl) && CopiesAgree(cache, pl) && Moved(pl, pl', e, t, phase) && !RecordGone(phase)
    ensures CopiesAgree(cache[t.id := t], pl')
  {}

  lemma MoveLedger(cache: Live, pl: Places, pl': Places, e: Entry, t: Task, phase: Phase,
                   completed: map<TaskId, Time>, completed': map<TaskId, Time>,
                   pending: map<nat, Task>, h: History, h': History)
    requires Ledger(cache, pl, completed, pending, h) && SameBooks(h, h')
    requires Moved(pl, pl', e, t, phase) && t.id in cache
    requires completed'.Keys <= completed.Keys + {t.id}
    ensures Ledger(cache[t.id := t], pl', completed', pending, h')
  {
    assert cache[t.id := t].Keys == cache.Keys;
  }

  lemma MoveCompleted(cache: Live, pl: Places, pl': Places, e: Entry, t: Task, phase: Phase,
                      completed: map<TaskId, Time>, completed': map<TaskId, Time>)
    requires CompletedLeaving(cache, pl, completed) && t.id in cache
    requires Moved(pl, pl', e, t, phase) && !pl.copies[e].phase.Recorded?
    requires completed'.Keys <= completed.Keys + (if phase.Recorded? then {t.id} else {})
    ensures CompletedLeaving(cache[t.id := t], pl', completed')
  {
    forall k | k in completed' && k in cache ensures exists f :: IsRecorded(pl', f, k) {
      if k == t.id && phase.Recorded? {
        assert IsRecorded(pl', e, k);
      } else {
        var f :| IsRecorded(pl, f, k);
        assert IsRecorded(pl', f, k);
      }
    }
  }

  lemma MoveHashes(s: State, s': State, e: Entry, t: Task, phase: Phase)
    requires HashesHeld(s) && CopiesAgree(s.store.cache, s.places)
    requires Moved(s.places, s'.places, e, t, phase) && t.payloadHash == TaskOf(s, e).payloadHash
    requires !RecordGone(s.places.copies[e].phase) && !RecordGone(phase)
    requires s'.dedupe == s.dedupe && s'.store.cache == s.store.cache[t.id := t]
    ensures HashesHeld(s')
  {
    HashesFrame(s, s');
  }

  ghost predicate RetriesMove(h: History, h': History, t: Task) {
    && t.id in h'.failures && RetryFits(t, h'.failures[t.id])
    && h'.failures == h.failures[t.id := h'.failures[t.id]]
    && (forall d | d in h'.deaths :: d.failure == DeadLetterNumber(d.maxRetries))
  }

  /** A copy whose record stays moves on, saved with its task or unsaved and unchanged. */
  lemma MoveBooks(s: State, s': State, e: Entry, t: Task, phase: Phase)
    requires Books(s) && Exclusive(s.places) && Moved(s.places, s'.places, e, t, phase)
    requires t.deletedAt.None? && t.payloadHash == TaskOf(s, e).payloadHash
    requires !RecordGone(s.places.copies[e].phase) && !RecordGone(phase) && !s.places.copies[e].phase.Recorded?
    requires s'.dedupe == s.dedupe
    requires (s'.store == s.store && t == TaskOf(s, e)) || s'.store == Saved(s.store, t)
    requires s'.completed.Keys <= s.completed.Keys + (if phase.Recorded? then {t.id} else {})
    requires SameBooks(s.hist, s'.hist) && RetriesMove(s.hist, s'.hist, t)
    ensures Books(s')
  {
    assert s'.store.cache == s.store.cache[t.id := t];
    MoveCopies(s.store.cache, s.places, s'.places, e, t, phase);
    MoveLedger(s.store.cache, s.places, s'.places, e, t, phase, s.completed, s'.completed,
               s.dedupe.pending, s.hist, s'.hist);
    MoveCompleted(s.store.cache, s.places, s'.places, e, t, phase, s.completed, s'.completed);
    MoveHashes(s, s', e, t, phase);
  }

  /** The same, unsaved and with nothing new to count. */
  lemma StepOnBooks(s: State, s': State, e: Entry, phase: Phase)
    requires Books(s) && Safe(s) && e in s.places.copies
    requires Moved(s.places, s'.places, e, TaskOf(s, e), phase)
    requires !RecordGone(s.places.copies[e].phase) && !RecordGone(phase) && !s.places.copies[e].phase.Recorded?
    requires s'.dedupe == s.dedupe && s'.store == s.store
    requires s'.completed.Keys <= s.completed.Keys + (if phase.Recorded? then {TaskOf(s, e).id} else {})
    requires SameBooks(s.hist, s'.hist) && s'.hist.failures == s.hist.failures && s'.hist.deaths == s.hist.deaths
    ensures Books(s')
  {
    MoveBooks(s, s', e, TaskOf(s, e), phase);
  }

  /** A copy goes away, its record staying or already gone. */
  lemma DropBooks(s: State, s': State, e: Entry)
    requires Books(s) && e in s.places.copies
    requires s'.places.copies == s.places.copies - {e} && s'.places.stuck == s.places.stuck
    requires !s.places.copies[e].phase.Recorded? && !s.places.copies[e].phase.Erased?
    requires s'.dedupe == s.dedupe && s'.store == s.store && s'.completed == s.completed && s'.hist == s.hist
    ensures Books(s')
  {
    forall k | k in s'.completed && k in s'.store.cache ensures exists f :: IsRecorded(s'.places, f, k) {
      var f :| IsRecorded(s.places, f, k);
      assert IsRecorded(s'.places, f, k);
    }
    HashesFrame(s, s');
  }

  // ---- Every step ----

  /** The early return before the guard is never taken: a spawned execution's id is not
      in the completed set. */
  lemma EarlyReturnUnreachable(s: State, e: Entry)
    requires Accounted(s) && In(s, e, Spawned)
    ensures TaskOf(s, e).id !in s.completed
  {}

  lemma HandBooks(s: State, step: DispatchStep)
    requires Accounted(s) && DispatchEnabled(s, step)
    requires step.Pop? || step.Clear? || step.Deny?
    ensures Books(NextDispatch(s, step))
  {
    hide Books, Safe, Saved;
    var s' := NextDispatch(s, step);
    match step
    case Pop(pool, e) => StepOnBooks(s, s', e, Popped);
    case Clear(e) => StepOnBooks(s, s', e, Cleared);
    case Deny(e) => StepOnBooks(s, s', e, Denied);
  }

  lemma DeferBooks(s: State, e: Entry, now: Time)
    requires Accounted(s) && DispatchEnabled(s, DeferSave(e, now))
    ensures Books(NextDispatch(s, DeferSave(e, now)))
  {
    hide HashesHeld, Ledger, CompletedLeaving, Exclusive, StoreSound, NothingVanishes, Saved;
    MoveBooks(s, NextDispatch(s, DeferSave(e, now)), e, Deferral(TaskOf(s, e), now), Deferred);
  }

  lemma DispatchBooks(s: State, step: DispatchStep)
    requires Accounted(s) && DispatchEnabled(s, step)
    ensures Books(NextDispatch(s, step))
  {
    hide HashesHeld, Ledger, CompletedLeaving, Exclusive, StoreSound, NothingVanishes, Saved;
    var s' := NextDispatch(s, step);
    if step.DeferRemove? {
      DropBooks(s, s', step.e);
    } else if step.DeferSave? {
      DeferBooks(s, step.e, step.now);
    } else if step.Begin? {
      DuplicateDropUnreachable(s.places, step.e);
      StepOnBooks(s, s', step.e, Spawned);
    } else if step.Acquire? || step.PopEmpty? || step.ExitDispatcher? {
      HashesFrame(s, s');
    } else {
      HandBooks(s, step);
    }
  }

  lemma RunBooks(s: State, step: RunStep)
    requires Accounted(s) && RunEnabled(s, step)
    ensures Books(NextRun(s, step))
  {
    hide Books, Safe, Saved;
    var s' := NextRun(s, step);
    match step
    case CheckCompleted(e) =>
      EarlyReturnUnreachable(s, e);
      StepOnBooks(s, s', e, Handling);
    case NoHandler(e) => StepOnBooks(s, s', e, Leaving);
    case Succeed(e) => StepOnBooks(s, s', e, Ending(true));
    case Reschedule(e, next) => RescheduleBooks(s, e, next);
    case Fail(e, error, now) => FailBooks(s, e, error, now);
    case Exhaust(e) => ExhaustBooks(s, e);
  }

  /** Failures are counted as they are saved, and a dead letter is sent at exactly the
      task's dead-letter number. */
  /** A running copy is live, and its count is that of its saved failures. */
  lemma CopyFits(s: State, e: Entry)
    requires Accounted(s) && In(s, e, Handling)
    ensures var t := TaskOf(s, e);
      && Exclusive(s.places) && t.deletedAt.None?
      && t.id in s.hist.failures && RetryFits(t, Failures(s.hist, t.id))
      && forall d | d in s.hist.deaths :: d.failure == DeadLetterNumber(d.maxRetries)
  {
    hide HashesHeld, Ledger, CompletedLeaving, StoreSound, NothingVanishes;
  }

  lemma RescheduleBooks(s: State, e: Entry, next: Time)
    requires Accounted(s) && RunEnabled(s, Reschedule(e, next))
    ensures Books(NextRun(s, Reschedule(e, next)))
  {
    CopyFits(s, e);
    hide Books, Safe, Saved, Exclusive;
    MoveBooks(s, NextRun(s, Reschedule(e, next)), e, Rescheduled(TaskOf(s, e), next), Leaving);
  }

  lemma FailureCounts(s: State, e: Entry, error: string, now: Time)
    requires RunEnabled(s, Fail(e, error, now))
    requires RetryFits(TaskOf(s, e), Failures(s.hist, TaskOf(s, e).id))
    requires forall d | d in s.hist.deaths :: d.failure == DeadLetterNumber(d.maxRetries)
    ensures RetriesMove(s.hist, NextRun(s, Fail(e, error, now)).hist, UpdateRetryConfig(TaskOf(s, e), Some(error), now))
  {
    hide Saved, DeadLetterNumber;
  }

  lemma FailBooks(s: State, e: Entry, error: string, now: Time)
    requires Accounted(s) && RunEnabled(s, Fail(e, error, now))
    ensures Books(NextRun(s, Fail(e, error, now)))
  {
    CopyFits(s, e);
    FailureCounts(s, e, error, now);
    hide Books, Safe, Saved, Exclusive, RetriesMove, RetryFits, Accounted, DeadLetterNumber;
    MoveBooks(s, NextRun(s, Fail(e, error, now)), e, UpdateRetryConfig(TaskOf(s, e), Some(error), now), Leaving);
  }

  lemma DeathCounts(s: State, e: Entry)
    requires RunEnabled(s, Exhaust(e)) && TaskOf(s, e).id in s.hist.failures
    requires RetryFits(TaskOf(s, e), Failures(s.hist, TaskOf(s, e).id))
    requires forall d | d in s.hist.deaths :: d.failure == DeadLetterNumber(d.maxRetries)
    ensures RetriesMove(s.hist, NextRun(s, Exhaust(e)).hist, TaskOf(s, e))
  {
    RetryBoundary(TaskOf(s, e), Failures(s.hist, TaskOf(s, e).id));
    hide RetryFits, DeadLetterNumber;
  }

  lemma ExhaustBooks(s: State, e: Entry)
    requires Accounted(s) && RunEnabled(s, Exhaust(e))
    ensures Books(NextRun(s, Exhaust(e)))
  {
    CopyFits(s, e);
    DeathCounts(s, e);
    hide Books, Safe, Saved, Exclusive, RetriesMove, RetryFits, Accounted, DeadLetterNumber;
    MoveBooks(s, NextRun(s, Exhaust(e)), e, TaskOf(s, e), Ending(false));
  }

  lemma EraseLedger(cache: Live, pl: Places, pl': Places, e: Entry,
                    completed: map<TaskId, Time>, pending: map<nat, Task>, h: History, h': History)
    requires Exclusive(pl) && CopiesAgree(cache, pl) && CompletedLeaving(cache, pl, completed)
    requires Ledger(cache, pl, completed, pending, h)
    requires e in pl.copies && pl.copies[e].phase.Recorded? && Moved(pl, pl', e, pl.copies[e].task, Erased)
    requires var id := pl.copies[e].task.id;
      h' == if pl.copies[e].phase.won then h.(finished := h.finished + {id}) else h.(dead := h.dead + {id})
    ensures var cache' := cache - {pl.copies[e].task.id};
      && Ledger(cache', pl', completed, pending, h')
      && CopiesAgree(cache', pl') && CompletedLeaving(cache', pl', completed)
  {
    var id := pl.copies[e].task.id;
    assert cache.Keys == (cache - {id}).Keys + {id};
    forall k | k in completed && k in cache && k != id ensures exists f :: IsRecorded(pl', f, k) {
      var f :| IsRecorded(pl, f, k);
      assert IsRecorded(pl', f, k);
    }
  }

  /** The tombstone: the live record's hash passes to the erasing execution. */
  lemma EraseBooks(s: State, e: Entry, now: Time)
    requires Accounted(s) && FinishEnabled(s, Erase(e, now))
    ensures Books(NextFinish(s, Erase(e, now)))
  {
    hide Ledger, CompletedLeaving, Exclusive, HashesHeld, NothingVanishes;
    var s', t := NextFinish(s, Erase(e, now)), TaskOf(s, e);
    DeletedSound(s.store, t.id, now);
    EraseLedger(s.store.cache, s.places, s'.places, e, s.completed, s.dedupe.pending, s.hist, s'.hist);
    EraseHashes(s, s', e);
  }

  lemma EraseHashes(s: State, s': State, e: Entry)
    requires HashesHeld(s) && e in s.places.copies && s.places.copies[e].phase.Recorded?
    requires TaskOf(s, e).id in s.store.cache && s.store.cache[TaskOf(s, e).id] == TaskOf(s, e)
    requires s'.places.copies == s.places.copies[e := Copy(TaskOf(s, e), Erased)]
    requires s'.store.cache == s.store.cache - {TaskOf(s, e).id} && s'.dedupe == s.dedupe
    ensures HashesHeld(s')
  {
    var live, erased := OfLive(TaskOf(s, e).id), OfErased(e);
    assert HashAt(s', erased) == HashAt(s, live) && HashAt(s', live) == None && HashAt(s, erased) == None;
    assert forall a | a != live && a != erased :: HashAt(s', a) == HashAt(s, a);
    forall h | h in s'.dedupe.active ensures exists a :: HashAt(s', a) == Some(h) {
      var a :| HashAt(s, a) == Some(h);
      assert HashAt(s', if a == live then erased else a) == Some(h);
    }
  }

  lemma ReleaseBooks(s: State, e: Entry)
    requires Accounted(s) && FinishEnabled(s, ReleaseHash(e))
    ensures Books(NextFinish(s, ReleaseHash(e)))
  {
    var s' := NextFinish(s, ReleaseHash(e));
    assert forall k, f :: IsRecorded(s'.places, f, k) <==> IsRecorded(s.places, f, k);
    ReleaseHashes(s, s', e);
  }

  lemma ReleaseHashes(s: State, s': State, e: Entry)
    requires HashesHeld(s) && In(s, e, Erased)
    requires s'.places.copies == s.places.copies[e := Copy(TaskOf(s, e), Gone)] && s'.store == s.store
    requires s'.dedupe.pending == s.dedupe.pending
    requires var h := TaskOf(s, e).payloadHash;
      s'.dedupe.active == if h.Some? then s.dedupe.active - {h.value} else s.dedupe.active
    ensures HashesHeld(s')
  {
    var erased := OfErased(e);
    assert HashAt(s', erased) == None && HashAt(s, erased) == TaskOf(s, e).payloadHash;
    assert forall a | a != erased :: HashAt(s', a) == HashAt(s, a);
    forall h | h in s'.dedupe.active ensures exists a :: HashAt(s', a) == Some(h) {
      var a :| HashAt(s, a) == Some(h);
      assert HashAt(s', a) == Some(h);
    }
  }

  lemma FinishBooks(s: State, step: FinishStep)
    requires Accounted(s) && FinishEnabled(s, step)
    ensures Books(NextFinish(s, step))
  {
    hide HashesHeld, Ledger, CompletedLeaving, Exclusive, StoreSound, NothingVanishes, Saved, Deleted;
    var s' := NextFinish(s, step);
    match step
    case RecordCompleted(e, now) => StepOnBooks(s, s', e, Recorded(s.places.copies[e].phase.won));
    case Erase(e, now) => EraseBooks(s, e, now);
    case ReleaseHash(e) => ReleaseBooks(s, e);
    case Leave(e) => DropBooks(s, s', e);
  }

  // ---- Enqueue, scan, and the outside ----

  /** A duplicate is dropped exactly when something already holds its hash. */
  lemma DuplicateDropped(s: State, req: nat, t: Task)
    requires Accounted(s) && EnqueueEnabled(s, EnqueueCheck(req, t))
    ensures NextEnqueue(s, EnqueueCheck(req, t)) == s <==>
      t.payloadHash.Some? && exists a :: HashAt(s, a) == t.payloadHash
  {
    var s' := NextEnqueue(s, EnqueueCheck(req, t));
    if t.payloadHash.Some? && t.payloadHash.value in s.dedupe.active {
      var a :| HashAt(s, a) == Some(t.payloadHash.value);
      assert HashAt(s, a) == t.payloadHash;
    } else {
      assert req in s'.dedupe.pending && req !in s.dedupe.pending;
    }
  }

  lemma CheckBooks(s: State, req: nat, t: Task)
    requires Books(s) && EnqueueEnabled(s, EnqueueCheck(req, t)) && Fresh(s, t.id) && t.retryCount == 0
    ensures Books(NextEnqueue(s, EnqueueCheck(req, t)))
  {
    var s' := NextEnqueue(s, EnqueueCheck(req, t));
    if s' != s {
      var asked := OfPending(req);
      assert HashAt(s', asked) == t.payloadHash && HashAt(s, asked) == None;
      assert forall a | a != asked :: HashAt(s', a) == HashAt(s, a);
      forall h | h in s'.dedupe.active ensures exists a :: HashAt(s', a) == Some(h) {
        if h in s.dedupe.active {
          var a :| HashAt(s, a) == Some(h);
          assert HashAt(s', a) == Some(h);
        } else {
          assert HashAt(s', asked) == Some(h);
        }
      }
    }
  }

  lemma SaveLedger(cache: Live, pl: Places, completed: map<TaskId, Time>, pending: map<nat, Task>,
                   h: History, h': History, req: nat)
    requires CopiesAgree(cache, pl) && CompletedLeaving(cache, pl, completed) && RetriesCounted(cache, h)
    requires Ledger(cache, pl, completed, pending, h) && req in pending
    requires h' == h.(accepted := h.accepted + {pending[req].id}, failures := h.failures[pending[req].id := 0])
    ensures var cache' := cache[pending[req].id := pending[req]];
      && Ledger(cache', pl, completed, pending - {req}, h') && CopiesAgree(cache', pl)
      && CompletedLeaving(cache', pl, completed) && RetriesCounted(cache', h')
  {
    var id := pending[req].id;
    assert cache[id := pending[req]].Keys == cache.Keys + {id};
  }

  lemma SaveHashes(s: State, s': State, req: nat)
    requires HashesHeld(s) && req in s.dedupe.pending && s.dedupe.pending[req].id !in s.store.cache
    requires s'.store.cache == s.store.cache[s.dedupe.pending[req].id := s.dedupe.pending[req]]
    requires s'.dedupe == s.dedupe.(pending := s.dedupe.pending - {req}) && s'.places == s.places
    ensures HashesHeld(s')
  {
    var asked, live := OfPending(req), OfLive(s.dedupe.pending[req].id);
    assert HashAt(s', live) == HashAt(s, asked) && HashAt(s', asked) == None && HashAt(s, live) == None;
    assert forall a | a != live && a != asked :: HashAt(s', a) == HashAt(s, a);
    forall h | h in s'.dedupe.active ensures exists a :: HashAt(s', a) == Some(h) {
      var a :| HashAt(s, a) == Some(h);
      assert HashAt(s', if a == asked then live else a) == Some(h);
    }
  }

  lemma SaveBooks(s: State, req: nat)
    requires Accounted(s) && EnqueueEnabled(s, EnqueueSave(req))
    ensures Books(NextEnqueue(s, EnqueueSave(req)))
  {
    hide CompletedLeaving, Exclusive, HashesHeld, NothingVanishes, RetriesCounted, CopiesAgree;
    var s', t := NextEnqueue(s, EnqueueSave(req)), s.dedupe.pending[req];
    SavedSound(s.store, t);
    SaveLedger(s.store.cache, s.places, s.completed, s.dedupe.pending, s.hist, s'.hist, req);
    SaveHashes(s, s', req);
  }

  /** Admission of current tasks adds copies that agree with the store. */
  lemma AdmitBooks(s: State, now: Time)
    requires Accounted(s) && s.scan.Read? && CurrentScan(s, s.scan.tasks, now)
    ensures Books(NextScan(s, ScanAdmit(now)))
  {
    hide CompletedLeaving, Ledger, CopiesAgree, StoreSound, NothingVanishes, RetriesCounted, HashesHeld;
    var s' := NextScan(s, ScanAdmit(now));
    AdmitAllAdds(s.places, s.scan.tasks, now);
    AdmitLedger(s, s'.places, now);
    AdmitHashes(s, s');
  }

  lemma AdmitHashes(s: State, s': State)
    requires HashesHeld(s) && s'.store == s.store && s'.dedupe == s.dedupe
    requires forall e | e in s.places.copies :: e in s'.places.copies && s'.places.copies[e] == s.places.copies[e]
    requires forall e | e in s'.places.copies && e !in s.places.copies :: s'.places.copies[e].phase == InHeap
    ensures HashesHeld(s')
  {
    HashesFrame(s, s');
  }

  lemma AdmitLedger(s: State, pl': Places, now: Time)
    requires Books(s) && s.scan.Read? && CurrentScan(s, s.scan.tasks, now)
    requires forall e | e in s.places.copies :: e in pl'.copies && pl'.copies[e] == s.places.copies[e]
    requires forall e | e in pl'.copies && e !in s.places.copies ::
      var t := pl'.copies[e].task;
      && pl'.copies[e].phase == InHeap && t in s.scan.tasks && Due(t, now)
      && t.id !in s.places.queued && t.id !in s.places.executing
    requires pl'.stuck == s.places.stuck
    ensures CopiesAgree(s.store.cache, pl')
    ensures Ledger(s.store.cache, pl', s.completed, s.dedupe.pending, s.hist)
    ensures CompletedLeaving(s.store.cache, pl', s.completed)
  {
    forall k | k in s.completed && k in s.store.cache ensures exists f :: IsRecorded(pl', f, k) {
      var f :| IsRecorded(s.places, f, k);
      assert IsRecorded(pl', f, k);
    }
  }

  lemma BootBooks(s: State)
    requires Accounted(s)
    ensures Books(Booted(s, s.store.file))
  {
    hide HashesHeld, Exclusive, NothingVanishes;
    BootHashes(s, Booted(s, s.store.file));
  }

  /** A restarted engine rebuilds from the log the hashes the live tasks held. */
  lemma BootHashes(s: State, s': State)
    requires HashesHeld(s) && s'.store.cache == s.store.cache && s'.places == Nowhere
    requires s'.dedupe == Dedupe(HashesOf(s.store.cache), map[])
    ensures HashesHeld(s')
  {
    assert forall id :: HashAt(s', OfLive(id)) == HashAt(s, OfLive(id));
    forall h | h in s'.dedupe.active ensures exists a :: HashAt(s', a) == Some(h) {
      var id :| id in s.store.cache && s.store.cache[id].payloadHash == Some(h);
      assert HashAt(s', OfLive(id)) == Some(h);
    }
  }

  lemma EvictBooks(s: State, now: Time)
    requires Books(s)
    ensures Books(NextOutside(s, Evict(now)))
  {
    hide HashesHeld, CopiesAgree, RetriesCounted;
    HashesFrame(s, NextOutside(s, Evict(now)));
  }

  lemma CompactBooks(s: State, stamps: seq<Time>, order: seq<TaskId>)
    requires Accounted(s) && OutsideEnabled(s, CompactLog(stamps, order)) && KeepsMeaning(Lines(s.store), stamps)
    ensures Books(NextOutside(s, CompactLog(stamps, order)))
  {
    hide Ledger, HashesHeld, CopiesAgree, RetriesCounted, CompletedLeaving, Exclusive, NothingVanishes, KeepsMeaning;
    CompactedConsistent(s.store, stamps, order);
    HashesFrame(s, NextOutside(s, CompactLog(stamps, order)));
  }

  lemma OutsideBooks(s: State, step: OutsideStep)
    requires Accounted(s) && OutsideEnabled(s, step) && Orderly(s, Outside(step))
    ensures Books(NextOutside(s, step))
  {
    hide Ledger, HashesHeld, CopiesAgree, RetriesCounted, CompletedLeaving, Exclusive, NothingVanishes, StoreSound;
    match step
    case Evict(now) => EvictBooks(s, now);
    case Pause => HashesFrame(s, NextOutside(s, Pause));
    case CompactLog(stamps, order) => CompactBooks(s, stamps, order);
    case Crash => BootBooks(s);
    case CrashAndReplay(_, _, _) => assert false;
  }

  lemma EnqueueBooks(s: State, step: EnqueueStep)
    requires Accounted(s) && EnqueueEnabled(s, step) && Orderly(s, Enqueue(step))
    ensures Books(NextEnqueue(s, step))
  {
    hide Ledger, CompletedLeaving, Exclusive, HashesHeld, NothingVanishes, RetriesCounted, CopiesAgree, StoreSound;
    match step
    case EnqueueCheck(req, t) => CheckBooks(s, req, t);
    case EnqueueSave(req) => SaveBooks(s, req);
  }

  lemma ScanBooks(s: State, step: ScanStep)
    requires Accounted(s) && ScanEnabled(s, step) && Orderly(s, Process(step))
    ensures Books(NextScan(s, step))
  {
    hide Ledger, CompletedLeaving, Exclusive, HashesHeld, NothingVanishes, RetriesCounted, CopiesAgree, StoreSound;
    if step.ScanAdmit? { AdmitBooks(s, step.now); } else { HashesFrame(s, NextScan(s, step)); }
  }

  lemma StepAccounted(s: State, step: Step)
    requires Accounted(s) && Enabled(s, step) && Orderly(s, step)
    ensures Accounted(Next(s, step))
  {
    hide Books, Safe;
    assert Accounted(s) <==> Safe(s) && Books(s);
    StepSafe(s, step);
    match step
    case Dispatch(x) => DispatchBooks(s, x);
    case Execute(x) => RunBooks(s, x);
    case Finish(x) => FinishBooks(s, x);
    case Outside(x) => OutsideBooks(s, x);
    case Enqueue(x) => EnqueueBooks(s, x);
    case Process(x) => ScanBooks(s, x);
  }

  lemma {:induction false} RunAccounted(s: State, steps: seq<Step>)
    requires Accounted(s) && OrderlyRun(s, steps)
    ensures PossibleRun(s, steps) && Accounted(Run(s, steps))
    decreases |steps|
  {
    if steps != [] {
      StepAccounted(s, steps[0]);
      RunAccounted(Next(s, steps[0]), steps[1..]);
    }
  }

  // ---- What the accounts say ----

  /** Live and neither queued nor executing. */
  function IdleIds(s: State): set<TaskId> {
    s.store.cache.Keys - s.places.queued - s.places.executing
  }

  /** In every orderly run each accepted task is in exactly one of idle, queued,
      executing, finished and dead-lettered, and the five counts add up to the number
      accepted. */
  lemma EveryTaskInOnePlace(steps: seq<Step>)
    requires OrderlyRun(Initial, steps)
    ensures PossibleRun(Initial, steps)
    ensures var s := Run(Initial, steps);
      var finished, dead := s.hist.finished - s.places.executing, s.hist.dead - s.places.executing;
      && s.hist.accepted == IdleIds(s) + s.places.queued + s.places.executing + finished + dead
      && |s.hist.accepted| == |IdleIds(s)| + |s.places.queued| + |s.places.executing| + |finished| + |dead|
  {
    hide Safe, Books;
    InitialAccounted();
    RunAccounted(Initial, steps);
    Partition(Run(Initial, steps));
  }

  lemma Partition(s: State)
    requires Accounted(s)
    ensures var finished, dead := s.hist.finished - s.places.executing, s.hist.dead - s.places.executing;
      && s.hist.accepted == IdleIds(s) + s.places.queued + s.places.executing + finished + dead
      && |s.hist.accepted| == |IdleIds(s)| + |s.places.queued| + |s.places.executing| + |finished| + |dead|
  {
    QueuedAreLive(s);
    SetsDisjoint(s.places);
    SplitCount(s.hist.accepted, s.store.cache.Keys, s.hist.finished, s.hist.dead, s.places.queued, s.places.executing);
  }

  lemma SplitCount(all: set<TaskId>, live: set<TaskId>, finished: set<TaskId>, dead: set<TaskId>,
                   queued: set<TaskId>, executing: set<TaskId>)
    requires all == live + finished + dead && live !! finished && live !! dead && finished !! dead
    requires queued <= live && executing <= all && queued !! executing
    ensures var idle, f, d := live - queued - executing, finished - executing, dead - executing;
      && all == idle + queued + executing + f + d
      && |all| == |idle| + |queued| + |executing| + |f| + |d|
  {
    var idle, f, d := live - queued - executing, finished - executing, dead - executing;
    assert all == (((idle + queued) + executing) + f) + d;
    assert idle !! queued && (idle + queued) !! executing;
    assert ((idle + queued) + executing) !! f;
    assert (((idle + queued) + executing) + f) !! d;
  }

  lemma QueuedAreLive(s: State)
    requires Accounted(s)
    ensures s.places.queued <= s.store.cache.Keys && s.places.executing <= s.hist.accepted
  {
    forall id | id in s.places.queued ensures id in s.store.cache {
      var e :| Holds(s.places, e, id, true);
    }
    forall id | id in s.places.executing ensures id in s.hist.accepted {
      var e :| Holds(s.places, e, id, false);
    }
  }

  /** In every orderly run no two live tasks share a payload hash, every live task's hash
      and that of every queued or running copy is active, and when no enqueue or erasure
      is half done the active hashes are exactly the live tasks' hashes. The one exception
      among copies is an execution that has released its hash and not yet dropped its
      guard: its hash is active only if another task holds it by then. */
  lemma DedupeHolds(steps: seq<Step>)
    requires OrderlyRun(Initial, steps)
    ensures PossibleRun(Initial, steps)
    ensures var s := Run(Initial, steps);
      && (forall i, j | i in s.store.cache && j in s.store.cache && i != j && s.store.cache[i].payloadHash.Some? ::
            s.store.cache[i].payloadHash != s.store.cache[j].payloadHash)
      && HashesOf(s.store.cache) <= s.dedupe.active
      && (forall e | e in s.places.copies && TaskOf(s, e).payloadHash.Some? ::
            var held := exists a :: HashAt(s, a) == TaskOf(s, e).payloadHash;
            if In(s, e, Gone) then TaskOf(s, e).payloadHash.value in s.dedupe.active <==> held
            else held && TaskOf(s, e).payloadHash.value in s.dedupe.active)
      && (s.dedupe.pending == map[] && (forall e :: !In(s, e, Erased)) ==> s.dedupe.active == HashesOf(s.store.cache))
  {
    InitialAccounted();
    RunAccounted(Initial, steps);
    var s := Run(Initial, steps);
    LiveHashesDistinct(s);
    ActiveHashesAreLive(s);
    CopyHashes(s);
  }

  lemma CopyHashes(s: State)
    requires Accounted(s)
    ensures forall e | e in s.places.copies && TaskOf(s, e).payloadHash.Some? ::
            var held := exists a :: HashAt(s, a) == TaskOf(s, e).payloadHash;
            if In(s, e, Gone) then TaskOf(s, e).payloadHash.value in s.dedupe.active <==> held
            else held && TaskOf(s, e).payloadHash.value in s.dedupe.active
  {
    forall e | e in s.places.copies && TaskOf(s, e).payloadHash.Some?
      ensures var held := exists a :: HashAt(s, a) == TaskOf(s, e).payloadHash;
            if In(s, e, Gone) then TaskOf(s, e).payloadHash.value in s.dedupe.active <==> held
            else held && TaskOf(s, e).payloadHash.value in s.dedupe.active
    {
      var t := TaskOf(s, e);
      assert Some(t.payloadHash.value) == t.payloadHash;
      if !In(s, e, Gone) {
        assert HashAt(s, if In(s, e, Erased) then OfErased(e) else OfLive(t.id)) == t.payloadHash;
      }
    }
  }

  lemma LiveHashesDistinct(s: State)
    requires HashesHeld(s)
    ensures forall i, j | i in s.store.cache && j in s.store.cache && i != j && s.store.cache[i].payloadHash.Some? ::
            s.store.cache[i].payloadHash != s.store.cache[j].payloadHash
  {
    forall i, j | i in s.store.cache && j in s.store.cache && i != j && s.store.cache[i].payloadHash.Some?
      ensures s.store.cache[i].payloadHash != s.store.cache[j].payloadHash
    {
      assert HashAt(s, OfLive(i)) == s.store.cache[i].payloadHash;
      assert HashAt(s, OfLive(j)) == s.store.cache[j].payloadHash;
    }
  }

  lemma ActiveHashesAreLive(s: State)
    requires HashesHeld(s)
    ensures HashesOf(s.store.cache) <= s.dedupe.active
    ensures s.dedupe.pending == map[] && (forall e :: !In(s, e, Erased)) ==> s.dedupe.active == HashesOf(s.store.cache)
  {
    forall h | h in HashesOf(s.store.cache) ensures h in s.dedupe.active {
      var id :| id in s.store.cache && s.store.cache[id].payloadHash == Some(h);
      assert HashAt(s, OfLive(id)) == Some(h);
    }
    if s.dedupe.pending == map[] && forall e :: !In(s, e, Erased) {
      forall h | h in s.dedupe.active ensures h in HashesOf(s.store.cache) {
        var a :| HashAt(s, a) == Some(h);
      }
    }
  }

  /** Exactly the ids out of retries have a dead letter. */
  ghost predicate LettersSent(h: History) {
    forall id :: id in h.lost <==> exists d :: d in h.deaths && d.id == id
  }

  lemma StepLetters(s: State, step: Step)
    requires Enabled(s, step) && LettersSent(s.hist)
    ensures LettersSent(Next(s, step).hist)
  {
    var h, h' := s.hist, Next(s, step).hist;
    if step.Execute? && step.run.Exhaust? {
      var t := TaskOf(s, step.run.e);
      var last := Death(t.id, Failures(h, t.id) + 1, t.maxRetries);
      assert h'.lost == h.lost + {t.id} && h'.deaths == h.deaths + {last};
      hide Next, Enabled;
      forall id | id in h'.lost ensures exists d :: d in h'.deaths && d.id == id {
        if id == t.id { assert last in h'.deaths; }
      }
    } else {
      assert h'.lost == h.lost && h'.deaths == h.deaths;
    }
  }

  lemma {:induction false} RunLetters(s: State, steps: seq<Step>)
    requires PossibleRun(s, steps) && LettersSent(s.hist)
    ensures LettersSent(Run(s, steps).hist)
    decreases |steps|
  {
    hide LettersSent, Next, Enabled;
    if steps != [] {
      StepLetters(s, steps[0]);
      RunLetters(Next(s, steps[0]), steps[1..]);
    }
  }

  /** In every orderly run a live task's stored retry count is its number of saved
      failures, every waiting or running copy is the stored record, the tasks out of retries
      are those with a dead letter, and each was sent at exactly the task's dead-letter
      number. */
  lemma RetriesAccounted(steps: seq<Step>)
    requires OrderlyRun(Initial, steps)
    ensures PossibleRun(Initial, steps)
    ensures var s := Run(Initial, steps);
      && (forall id | id in s.store.cache :: s.store.cache[id].retryCount == Failures(s.hist, id))
      && (forall e | e in s.places.copies && TaskOf(s, e).id in s.store.cache ::
            TaskOf(s, e) == s.store.cache[TaskOf(s, e).id])
      && (forall d | d in s.hist.deaths :: d.failure == DeadLetterNumber(d.maxRetries))
      && (forall id :: id in s.hist.lost <==> exists d :: d in s.hist.deaths && d.id == id)
  {
    InitialAccounted();
    RunAccounted(Initial, steps);
    RunLetters(Initial, steps);
  }

  /** In every orderly run neither safety net is ever used: a spawned execution is not in
      the completed set, a task about to start is not executing, and no id is left behind
      in `executing_tasks`. */
  lemma SafetyNetsUnused(steps: seq<Step>)
    requires OrderlyRun(Initial, steps)
    ensures PossibleRun(Initial, steps)
    ensures var s := Run(Initial, steps);
      && (forall e | In(s, e, Spawned) :: TaskOf(s, e).id !in s.completed)
      && (forall e | In(s, e, Cleared) :: TaskOf(s, e).id !in s.places.executing)
      && s.places.stuck == {}
  {
    InitialAccounted();
    RunAccounted(Initial, steps);
    var s := Run(Initial, steps);
    forall e | In(s, e, Spawned) ensures TaskOf(s, e).id !in s.completed { EarlyReturnUnreachable(s, e); }
    forall e | In(s, e, Cleared) ensures TaskOf(s, e).id !in s.places.executing {
      DuplicateDropUnreachable(s.places, e);
    }
  }

  // ---- A live task waits for its time ----

  ghost predicate Waits(s: State, t: Task) {
    t.id in s.store.cache && s.store.cache[t.id] == t && forall e | e in s.places.copies :: TaskOf(s, e).id != t.id
  }

  /** A current scan admits no copy of a live task before its execute and retry times, be
      that a retry's backoff, a rate limit's minute or a cron tick. */
  lemma NotAdmittedEarly(s: State, tasks: seq<Task>, t: Task, now: Time)
    requires Safe(s) && CurrentScan(s, tasks, now) && Waits(s, t) && (now < t.executeAt || now < t.retryAfterTime)
    ensures var pl := AdmitAll(s.places, tasks, now); forall e | e in pl.copies :: pl.copies[e].task.id != t.id
  {
    AdmitAllAdds(s.places, tasks, now);
    hide Safe;
  }

  /** If the step is an admission, it is before the task's execute or retry time. */
  predicate Early(step: Step, t: Task) {
    step.Process? && step.scan.ScanAdmit? ==> step.scan.now < t.executeAt || step.scan.now < t.retryAfterTime
  }

  lemma DispatchWaits(s: State, step: DispatchStep, t: Task)
    requires Waits(s, t) && DispatchEnabled(s, step)
    ensures Waits(NextDispatch(s, step), t)
  {}

  lemma RunStepWaits(s: State, step: RunStep, t: Task)
    requires Waits(s, t) && RunEnabled(s, step)
    ensures Waits(NextRun(s, step), t)
  {}

  lemma FinishWaits(s: State, step: FinishStep, t: Task)
    requires StoreSound(s) && Waits(s, t) && FinishEnabled(s, step)
    ensures Waits(NextFinish(s, step), t)
  {}

  lemma EnqueueWaits(s: State, step: EnqueueStep, t: Task)
    requires Accounted(s) && Waits(s, t) && EnqueueEnabled(s, step)
    ensures Waits(NextEnqueue(s, step), t)
  {
    hide HashesHeld, CopiesAgree, CompletedLeaving, RetriesCounted, Exclusive, NothingVanishes;
  }

  lemma OutsideWaits(s: State, step: OutsideStep, t: Task)
    requires StoreSound(s) && Waits(s, t) && OutsideEnabled(s, step) && Orderly(s, Outside(step))
    ensures Waits(NextOutside(s, step), t)
  {
    match step
    case CompactLog(stamps, order) => CompactedConsistent(s.store, stamps, order);
    case Crash => assert NextOutside(s, step).store.cache == s.store.cache;
    case _ =>
  }

  lemma ScanWaits(s: State, step: ScanStep, t: Task)
    requires Safe(s) && Waits(s, t) && ScanEnabled(s, step) && Orderly(s, Process(step)) && Early(Process(step), t)
    ensures Waits(NextScan(s, step), t)
  {
    var s' := NextScan(s, step);
    assert s'.store == s.store;
    assert s'.places == if step.ScanAdmit? then AdmitAll(s.places, s.scan.tasks, step.now) else s.places;
    if step.ScanAdmit? {
      NotAdmittedEarly(s, s.scan.tasks, t, step.now);
    }
    hide NextScan, Safe;
  }

  lemma StepWaits(s: State, step: Step, t: Task)
    requires Accounted(s) && Waits(s, t) && Enabled(s, step) && Orderly(s, step) && Early(step, t)
    ensures Waits(Next(s, step), t)
  {
    assert Safe(s) && StoreSound(s);
    hide Accounted, Safe, StoreSound, Waits;
    match step
    case Dispatch(x) => DispatchWaits(s, x, t);
    case Execute(x) => RunStepWaits(s, x, t);
    case Finish(x) => FinishWaits(s, x, t);
    case Enqueue(x) => EnqueueWaits(s, x, t);
    case Outside(x) => OutsideWaits(s, x, t);
    case Process(x) => ScanWaits(s, x, t);
  }

  /** Along every orderly run whose scans are all before its time, restarts included, a
      live task with no copy in memory stays as it is stored and gets no copy. */
  lemma {:induction false} WaitsItsTime(s: State, steps: seq<Step>, t: Task)
    requires Accounted(s) && Waits(s, t) && OrderlyRun(s, steps) && forall i | 0 <= i < |steps| :: Early(steps[i], t)
    ensures PossibleRun(s, steps) && Waits(Run(s, steps), t)
    decreases |steps|
  {
    hide Accounted, Waits;
    if steps != [] {
      StepAccounted(s, steps[0]);
      StepWaits(s, steps[0], t);
      WaitsItsTime(Next(s, steps[0]), steps[1..], t);
    }
  }

  /** A newly accepted task has no copy along any orderly run whose scans are all before the
      time it is to execute at, restarts included. */
  lemma AcceptedTaskWaits(s: State, req: nat, steps: seq<Step>)
    requires Accounted(s) && EnqueueEnabled(s, EnqueueSave(req))
    requires var s' := Next(s, Enqueue(EnqueueSave(req))); OrderlyRun(s', steps)
    requires forall i | 0 <= i < |steps| && steps[i].Process? && steps[i].scan.ScanAdmit? ::
      steps[i].scan.now < s.dedupe.pending[req].executeAt
    ensures var s', t := Next(s, Enqueue(EnqueueSave(req))), s.dedupe.pending[req];
      PossibleRun(s', steps) && Waits(Run(s', steps), t)
  {
    var s', t := Next(s, Enqueue(EnqueueSave(req))), s.dedupe.pending[req];
    StepAccounted(s, Enqueue(EnqueueSave(req)));
    SavedWaits(s, req);
    hide Accounted, Waits, Next;
    WaitsItsTime(s', steps, t);
  }

  lemma SavedWaits(s: State, req: nat)
    requires Accounted(s) && EnqueueEnabled(s, EnqueueSave(req))
    ensures Waits(Next(s, Enqueue(EnqueueSave(req))), s.dedupe.pending[req])
  {
    hide HashesHeld, CompletedLeaving, RetriesCounted, Exclusive, NothingVanishes, StoreSound;
  }

  // ---- What exactly the accounts ask of a scan ----

  /** A snapshot of the cache has one record for each id. */
  ghost predicate OneRecordEach(tasks: seq<Task>) {
    forall t, u | t in tasks && u in tasks && t.id == u.id :: t == u
  }

  ghost predicate SnapshotSound(s: State) {
    s.scan.Read? ==> OneRecordEach(s.scan.tasks)
  }

  lemma {:induction false} RunSnapshotSound(s: State, steps: seq<Step>)
    requires SnapshotSound(s) && PossibleRun(s, steps)
    ensures SnapshotSound(Run(s, steps))
    decreases |steps|
  {
    if steps != [] { RunSnapshotSound(Next(s, steps[0]), steps[1..]); }
  }

  ghost predicate IsPushed(pl: Places, t: Task) {
    exists e :: e in pl.copies && pl.copies[e] == Copy(t, InHeap)
  }

  /** A due task whose id is in neither set is pushed as the snapshot has it. */
  lemma {:induction false} DueTaskPushed(pl: Places, tasks: seq<Task>, now: Time, t: Task)
    requires Exclusive(pl) && OneRecordEach(tasks) && t in tasks
    requires t.executeAt <= now && t.retryAfterTime <= now && t.deletedAt.None?
    requires t.id !in pl.queued && t.id !in pl.executing
    ensures IsPushed(AdmitAll(pl, tasks, now), t)
  {
    var init, last := tasks[..|tasks| - 1], tasks[|tasks| - 1];
    var before, after := AdmitAll(pl, init, now), AdmitAll(pl, tasks, now);
    AdmitAllAdds(pl, init, now);
    assert tasks == init + [last];
    if t in init {
      DueTaskPushed(pl, init, now, t);
      var e :| e in before.copies && before.copies[e] == Copy(t, InHeap);
      assert after.copies[e] == Copy(t, InHeap);
    } else {
      NotYetQueued(pl, init, now, t.id);
      assert after.copies[before.next] == Copy(t, InHeap);
    }
  }

  lemma NotYetQueued(pl: Places, tasks: seq<Task>, now: Time, id: TaskId)
    requires Exclusive(pl) && id !in pl.queued && forall t | t in tasks :: t.id != id
    ensures id !in AdmitAll(pl, tasks, now).queued
  {
    var pl' := AdmitAll(pl, tasks, now);
    AdmitAllExclusive(pl, tasks, now);
    AdmitAllAdds(pl, tasks, now);
    if id in pl'.queued {
      var e :| Holds(pl', e, id, true);
      assert Holds(pl, e, id, true);
    }
  }

  /** What a scan pushes, in every run, stale snapshots included: each copy it adds is a
      task of its snapshot whose execute and retry times have come, that is not deleted, and
      whose id was neither queued nor executing; and each such task it does push, as the
      snapshot has it. */
  lemma ScanPushesExactly(steps: seq<Step>, now: Time)
    requires PossibleRun(Initial, steps) && Run(Initial, steps).scan.Read?
    ensures var s := Run(Initial, steps);
      var s', tasks := Next(s, Process(ScanAdmit(now))), s.scan.tasks;
      && (forall e | e in s'.places.copies && e !in s.places.copies ::
            var t := TaskOf(s', e);
            && s'.places.copies[e].phase == InHeap && t in tasks
            && t.executeAt <= now && t.retryAfterTime <= now && t.deletedAt.None?
            && t.id !in s.places.queued && t.id !in s.places.executing)
      && (forall e | e in s.places.copies :: e in s'.places.copies && s'.places.copies[e] == s.places.copies[e])
      && (forall t | t in tasks && t.executeAt <= now && t.retryAfterTime <= now && t.deletedAt.None?
                     && t.id !in s.places.queued && t.id !in s.places.executing ::
            IsPushed(s'.places, t))
  {
    var s := Run(Initial, steps);
    InitialSafe();
    RunSafe(Initial, steps);
    RunSnapshotSound(Initial, steps);
    AdmissionExact(s, now);
  }

  lemma AdmissionExact(s: State, now: Time)
    requires Exclusive(s.places) && s.scan.Read? && OneRecordEach(s.scan.tasks)
    ensures var s', tasks := Next(s, Process(ScanAdmit(now))), s.scan.tasks;
      && (forall e | e in s'.places.copies && e !in s.places.copies ::
            var t := TaskOf(s', e);
            && s'.places.copies[e].phase == InHeap && t in tasks
            && t.executeAt <= now && t.retryAfterTime <= now && t.deletedAt.None?
            && t.id !in s.places.queued && t.id !in s.places.executing)
      && (forall e | e in s.places.copies :: e in s'.places.copies && s'.places.copies[e] == s.places.copies[e])
      && (forall t | t in tasks && t.executeAt <= now && t.retryAfterTime <= now && t.deletedAt.None?
                     && t.id !in s.places.queued && t.id !in s.places.executing ::
            IsPushed(s'.places, t))
  {
    var s' := Next(s, Process(ScanAdmit(now)));
    assert s'.places == AdmitAll(s.places, s.scan.tasks, now);
    AdmitAllAdds(s.places, s.scan.tasks, now);
    forall t | t in s.scan.tasks && t.executeAt <= now && t.retryAfterTime <= now && t.deletedAt.None?
               && t.id !in s.places.queued && t.id !in s.places.executing
      ensures IsPushed(s'.places, t)
    {
      DueTaskPushed(s.places, s.scan.tasks, now, t);
    }
    hide Exclusive, AdmitAll, Next, Due;
  }

  /** From any accounted state: admitting a snapshot keeps the accounts exactly when every
      task it is about to push is the one the cache holds now. */
  lemma ScanExact(s: State, now: Time)
    requires Accounted(s) && s.scan.Read? && OneRecordEach(s.scan.tasks)
    ensures Accounted(NextScan(s, ScanAdmit(now))) <==> CurrentScan(s, s.scan.tasks, now)
  {
    hide Ledger, CompletedLeaving, HashesHeld, NothingVanishes, RetriesCounted, StoreSound, LiveCopies;
    if CurrentScan(s, s.scan.tasks, now) {
      StepAccounted(s, Process(ScanAdmit(now)));
    } else {
      var t :| t in s.scan.tasks && Due(t, now) && t.id !in s.places.executing && t.id !in s.places.queued
        && !(t.id in s.store.cache && s.store.cache[t.id] == t);
      DueTaskPushed(s.places, s.scan.tasks, now, t);
      var s' := NextScan(s, ScanAdmit(now));
      var e :| e in s'.places.copies && s'.places.copies[e] == Copy(t, InHeap);
      assert !CopiesAgree(s'.store.cache, s'.places);
    }
  }

  /** So after every orderly run the next admission, however old its snapshot, keeps the
      accounts if and only if the snapshot is current for what it pushes. */
  lemma OrderlyScanExact(steps: seq<Step>, now: Time)
    requires OrderlyRun(Initial, steps) && PossibleRun(Initial, steps) && Run(Initial, steps).scan.Read?
    ensures var s := Run(Initial, steps);
      Accounted(Next(s, Process(ScanAdmit(now)))) <==> CurrentScan(s, s.scan.tasks, now)
  {
    InitialAccounted();
    RunAccounted(Initial, steps);
    RunSnapshotSound(Initial, steps);
    ScanExact(Run(Initial, steps), now);
  }
}
