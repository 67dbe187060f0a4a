/** What a `replay` run on an engine's log would bring back. It goes by the error a
    tombstone carries, which is not the same as having been dead-lettered
    (src/main.rs, cmd_replay, over src/queue.rs). */
module SchedulerReplay {
  import opened Tasks
  import opened Log
  import opened FileStore
  import opened Placement
  import opened Scheduler
  import opened SchedulerSafety
  import opened SchedulerAccounts
  import opened SchedulerWitness
  import opened ReplayCommand

  /** Tasks are enqueued without an error on them. */
  predicate Clean(step: Step) {
    step.Enqueue? && step.enqueue.EnqueueCheck? ==> step.enqueue.task.lastError.None?
  }

  predicate ErrorTells(t: Task, h: History) {
    t.lastError.Some? <==> Failures(h, t.id) > 0
  }

  /** The last record of every id carries an error exactly when the id has a saved failure. */
  ghost predicate ErrorsTell(log: seq<Line>, h: History) {
    forall id | id in Latest(log) :: id in h.accepted && ErrorTells(Latest(log)[id], h)
  }

  ghost predicate Told(s: State) {
    ErrorsTell(Lines(s.store), s.hist) && forall r | r in s.dedupe.pending :: s.dedupe.pending[r].lastError.None?
  }

  lemma ToldFrame(s: State, s': State)
    requires Told(s) && Lines(s'.store) == Lines(s.store)
    requires s'.hist.accepted == s.hist.accepted && s'.hist.failures == s.hist.failures
    requires forall r | r in s'.dedupe.pending && r !in s.dedupe.pending :: s'.dedupe.pending[r].lastError.None?
    requires forall r | r in s'.dedupe.pending && r in s.dedupe.pending :: s'.dedupe.pending[r] == s.dedupe.pending[r]
    ensures Told(s')
  {
    LatestKeyed(Lines(s.store));
  }

  /** One line appended, telling the truth. */
  lemma ToldSave(s: State, s': State, t: Task)
    requires Told(s) && Lines(s'.store) == Lines(s.store) + [Record(t)]
    requires s'.hist.accepted == s.hist.accepted + {t.id} && ErrorTells(t, s'.hist)
    requires forall id | id != t.id :: Failures(s'.hist, id) == Failures(s.hist, id)
    requires forall r | r in s'.dedupe.pending :: r in s.dedupe.pending && s'.dedupe.pending[r] == s.dedupe.pending[r]
    ensures Told(s')
  {
    LatestKeyed(Lines(s.store));
    LatestAppend(Lines(s.store), t);
  }

  /** So does every cached record. */
  lemma LiveTold(s: State, id: TaskId)
    requires StoreSound(s) && Told(s) && id in s.store.cache
    ensures s.store.cache[id].id == id && ErrorTells(s.store.cache[id], s.hist) && id in s.hist.accepted
  {
    LatestAgreesWithReplay(Lines(s.store));
  }

  lemma SameTold(s: State, s': State)
    requires Told(s) && s'.store == s.store && s'.dedupe.pending == s.dedupe.pending
    requires s'.hist.accepted == s.hist.accepted && s'.hist.failures == s.hist.failures
    ensures Told(s')
  {}

  /** The task of a copy whose record is still there. */
  lemma CopyTold(s: State, e: Entry)
    requires Accounted(s) && Told(s) && e in s.places.copies && !RecordGone(s.places.copies[e].phase)
    ensures var t := TaskOf(s, e);
      && t.id in s.store.cache && s.store.cache[t.id] == t && t.deletedAt.None?
      && ErrorTells(t, s.hist) && t.id in s.hist.accepted
  {
    LiveTold(s, TaskOf(s, e).id);
  }

  lemma DeferTold(s: State, e: Entry, now: Time)
    requires Accounted(s) && Told(s) && DispatchEnabled(s, DeferSave(e, now))
    ensures Told(NextDispatch(s, DeferSave(e, now)))
  {
    CopyTold(s, e);
    hide Accounted, Told;
    ToldSave(s, NextDispatch(s, DeferSave(e, now)), Deferral(TaskOf(s, e), now));
  }

  lemma EraseTold(s: State, e: Entry, now: Time)
    requires Accounted(s) && Told(s) && FinishEnabled(s, Erase(e, now))
    ensures Told(NextFinish(s, Erase(e, now)))
  {
    CopyTold(s, e);
    hide Accounted, Told;
    ToldSave(s, NextFinish(s, Erase(e, now)), MarkDeleted(TaskOf(s, e), now));
  }

  lemma FailTold(s: State, e: Entry, error: string, now: Time)
    requires Accounted(s) && Told(s) && RunEnabled(s, Fail(e, error, now))
    ensures Told(NextRun(s, Fail(e, error, now)))
  {
    CopyTold(s, e);
    hide Accounted, Told;
    ToldSave(s, NextRun(s, Fail(e, error, now)), UpdateRetryConfig(TaskOf(s, e), Some(error), now));
  }

  lemma RescheduleTold(s: State, e: Entry, next: Time)
    requires Accounted(s) && Told(s) && RunEnabled(s, Reschedule(e, next))
    ensures Told(NextRun(s, Reschedule(e, next)))
  {
    CopyTold(s, e);
    hide Accounted, Told;
    ToldSave(s, NextRun(s, Reschedule(e, next)), Rescheduled(TaskOf(s, e), next));
  }

  lemma AnswerTold(s: State, step: RunStep)
    requires Accounted(s) && Told(s) && RunEnabled(s, step)
    ensures Told(NextRun(s, step))
  {
    hide Accounted, Told, Saved;
    match step
    case Fail(e, error, now) => FailTold(s, e, error, now);
    case Reschedule(e, next) => RescheduleTold(s, e, next);
    case _ => SameTold(s, NextRun(s, step));
  }

  lemma CompactTold(s: State, stamps: seq<Time>, order: seq<TaskId>)
    requires Accounted(s) && Told(s)
    requires OutsideEnabled(s, CompactLog(stamps, order)) && KeepsMeaning(Lines(s.store), stamps)
    ensures Told(NextOutside(s, CompactLog(stamps, order)))
  {
    hide Accounted, CompactedMap, Visits, KeepsMeaning;
    CompactedLatest(Lines(s.store), stamps, order);
  }

  lemma StepTold(s: State, step: Step)
    requires Accounted(s) && Told(s) && Enabled(s, step) && Orderly(s, step) && Clean(step)
    ensures Told(Next(s, step))
  {
    hide Accounted, Told, Saved, Deleted, Compacted, AdmitAll, PoolsFed, UpdateRetryConfig, Rescheduled, Deferral;
    var s' := Next(s, step);
    match step
    case Execute(x) => AnswerTold(s, x);
    case Dispatch(x) => hide NextDispatch; DispatchTold(s, x);
    case Finish(x) => hide NextFinish; FinishTold(s, x);
    case Process(_) => SameTold(s, s');
    case Enqueue(x) => EnqueueTold(s, x);
    case Outside(x) => hide NextOutside; OutsideTold(s, x);
  }

  lemma DispatchTold(s: State, step: DispatchStep)
    requires Accounted(s) && Told(s) && DispatchEnabled(s, step)
    ensures Told(NextDispatch(s, step))
  {
    hide Accounted, Told, Saved, Deferral;
    if step.DeferSave? {
      DeferTold(s, step.e, step.now);
    } else {
      SameTold(s, NextDispatch(s, step));
    }
  }

  lemma FinishTold(s: State, step: FinishStep)
    requires Accounted(s) && Told(s) && FinishEnabled(s, step)
    ensures Told(NextFinish(s, step))
  {
    hide Accounted, Told, Deleted;
    if step.Erase? {
      EraseTold(s, step.e, step.now);
    } else {
      SameTold(s, NextFinish(s, step));
    }
  }

  lemma OutsideTold(s: State, step: OutsideStep)
    requires Accounted(s) && Told(s) && OutsideEnabled(s, step) && Orderly(s, Outside(step)) && Clean(Outside(step))
    ensures Told(NextOutside(s, step))
  {
    hide Accounted, Told, Compacted;
    match step
    case CompactLog(stamps, order) => CompactTold(s, stamps, order);
    case CrashAndReplay(_, _, _) =>
    case _ => ToldFrame(s, NextOutside(s, step));
  }

  lemma EnqueueTold(s: State, step: EnqueueStep)
    requires Accounted(s) && Told(s) && EnqueueEnabled(s, step) && Clean(Enqueue(step))
    ensures Told(NextEnqueue(s, step))
  {
    var s' := NextEnqueue(s, step);
    if step.EnqueueCheck? {
      ToldFrame(s, s');
    } else {
      ToldSave(s, s', s.dedupe.pending[step.req]);
    }
  }

  lemma {:induction false} RunTold(s: State, steps: seq<Step>)
    requires Accounted(s) && Told(s) && OrderlyRun(s, steps) && forall i | 0 <= i < |steps| :: Clean(steps[i])
    ensures PossibleRun(s, steps) && Accounted(Run(s, steps)) && Told(Run(s, steps))
    decreases |steps|
  {
    hide Accounted, Told;
    if steps != [] {
      StepAccounted(s, steps[0]);
      StepTold(s, steps[0]);
      RunTold(Next(s, steps[0]), steps[1..]);
    }
  }

  /** In every orderly run, `replay` would bring back exactly the tasks that are finished
      or dead-lettered, had failed and been saved for retry since they were enqueued or
      last succeeded by cron, match the type, and whose tombstone no compaction has dropped. */
  lemma ReplayRecoversExactly(steps: seq<Step>, target: string, clock: TaskId -> Time, id: TaskId)
    requires OrderlyRun(Initial, steps) && forall i | 0 <= i < |steps| :: Clean(steps[i])
    ensures PossibleRun(Initial, steps)
    ensures var s := Run(Initial, steps); var latest := Latest(Lines(s.store));
      id in Recovered(Lines(s.store), target, clock) <==>
        && id in latest && (target == "all" || latest[id].taskType == target)
        && (id in s.hist.finished || id in s.hist.dead) && Failures(s.hist, id) > 0
  {
    InitialAccounted();
    RunTold(Initial, steps);
    var s := Run(Initial, steps);
    LatestKeyed(Lines(s.store));
    LatestAgreesWithReplay(Lines(s.store));
  }

  // ---- Neither all the dead letters nor only they ----

  lemma FirstFailureFinal() returns (s: State)
    ensures Reachable(s) && s.store.cache == map["a" := A] && s.places.copies == map[0 := Copy(A, Ending(false))]
  {
    s := FirstHandling(A);
    assert !RetryAllowed(A);
    hide Reachable, RetryAllowed, Wrap32;
    s := Reach(s, Execute(Exhaust(0)));
  }

  lemma FirstFailureRecorded() returns (s: State)
    ensures Reachable(s) && s.store.cache == map["a" := A] && s.places.copies == map[0 := Copy(A, Recorded(false))]
  {
    s := FirstFailureFinal();
    hide Reachable;
    s := Reach(s, Finish(RecordCompleted(0, 0)));
  }

  /** A task dead-lettered on its first failure is not brought back: its tombstone carries
      no error. */
  lemma FirstFailureIsNotReplayed(clock: TaskId -> Time) returns (s: State)
    ensures Reachable(s) && "a" in s.hist.dead && "a" !in Recovered(Lines(s.store), "all", clock)
  {
    s := FirstFailureRecorded();
    hide Reachable;
    LatestAppend(Lines(s.store), MarkDeleted(A, 0));
    s := Reach(s, Finish(Erase(0, 0)));
  }

  /** A task that failed, was retried and then succeeded is brought back to run again. */
  lemma LateSuccessIsReplayed(s: State, e: Entry, now: Time, target: string, clock: TaskId -> Time)
    requires Accounted(s) && Told(s) && In(s, e, Recorded(true)) && Failures(s.hist, TaskOf(s, e).id) > 0
    requires target == "all" || target == TaskOf(s, e).taskType
    ensures var s', id := NextFinish(s, Erase(e, now)), TaskOf(s, e).id;
      id in s'.hist.finished && id in Recovered(Lines(s'.store), target, clock)
  {
    var t := TaskOf(s, e);
    LiveTold(s, t.id);
    LatestAppend(Lines(s.store), MarkDeleted(t, now));
  }

  /** B after its first failure: due at once, for its backoff is zero hours. */
  function Failed(): Task {
    UpdateRetryConfig(B, Some("failed"), 0)
  }

  lemma SecondHandling() returns (s: State)
    ensures Reachable(s) && s.places == Places(map[1 := Copy(Failed(), Handling)], 2, {}, {"a"}, {})
    ensures s.store.cache == map["a" := Failed()] && Failures(s.hist, "a") > 0
  {
    s := RetrySaved();
    s := Snapshot(s, Failed());
    AdmitOnly(s.places, Failed());
    hide Reachable;
    s := Reach(s, Process(ScanAdmit(0)));
    assert s.places.copies == map[1 := Copy(Failed(), InHeap)];
    s := Fetched(s, 1, Failed());
    s := Started(s, 1, Failed());
    s := Reach(s, Execute(CheckCompleted(1)));
  }

  lemma RetrySaved() returns (s: State)
    ensures Reachable(s) && s.places == Places(map[], 1, {}, {}, {}) && s.threads == OneWaiting
    ensures s.store.cache == map["a" := Failed()] && s.completed == map[] && !s.paused && s.scan == Idle
    ensures Failures(s.hist, "a") > 0 && Plain(Failed())
  {
    s := FirstFailed();
    hide Reachable;
    s := Reach(s, Finish(Leave(0)));
    assert s.places.copies == map[];
  }

  lemma FirstFailed() returns (s: State)
    ensures Reachable(s) && s.places == Places(map[0 := Copy(Failed(), Leaving)], 1, {}, {"a"}, {})
    ensures s.store.cache == map["a" := Failed()] && s.completed == map[] && !s.paused && s.scan == Idle
    ensures s.threads == OneWaiting && Failures(s.hist, "a") > 0 && Plain(Failed())
  {
    s := FirstHandling(B);
    hide Reachable;
    s := Reach(s, Execute(Fail(0, "failed", 0)));
  }

  lemma SecondRecorded() returns (s: State)
    ensures Reachable(s) && s.store.cache == map["a" := Failed()] && Failures(s.hist, "a") > 0
    ensures s.places.copies == map[1 := Copy(Failed(), Recorded(true))]
  {
    s := SecondHandling();
    hide Reachable;
    s := Reach(s, Execute(Succeed(1)));
    s := Reach(s, Finish(RecordCompleted(1, 0)));
  }

  /** Such a task is reached: two attempts, the first failing, the second succeeding. */
  lemma LateSuccessReached(clock: TaskId -> Time) returns (s: State)
    ensures Reachable(s) && "a" in s.hist.finished && Failures(s.hist, "a") > 0
    ensures "a" in Recovered(Lines(s.store), "all", clock)
  {
    s := SecondRecorded();
    hide Reachable;
    LatestAppend(Lines(s.store), MarkDeleted(Failed(), 0));
    s := Reach(s, Finish(Erase(1, 0)));
  }
}
