/** What holds in every run of the scheduler, stale snapshots, reused ids, any
    compaction stamps, crashes and replays included. */
module SchedulerSafety {
  import opened Tasks
  import opened Log
  import opened FileStore
  import opened Placement
  import opened Scheduler

  predicate HasOutcome(p: Phase) {
    p.Ending? || p.Recorded? || p.Erased? || p.Gone?
  }

  ghost predicate StoreSound(s: State) {
    Consistent(s.store) && Keyed(s.store.cache)
  }

  ghost predicate LiveCopies(s: State) {
    && (forall e | e in s.places.copies :: TaskOf(s, e).deletedAt.None?)
    && (forall r | r in s.dedupe.pending :: s.dedupe.pending[r].deletedAt.None?)
  }

  /** Every accepted id is still live in the log, or has had a final outcome. */
  ghost predicate NothingVanishes(s: State) {
    && (forall id | id in s.hist.accepted :: id in s.store.cache || id in s.hist.won || id in s.hist.lost)
    && (forall e | e in s.places.copies && HasOutcome(s.places.copies[e].phase) ::
          TaskOf(s, e).id in s.hist.won || TaskOf(s, e).id in s.hist.lost)
  }

  ghost predicate Safe(s: State) {
    StoreSound(s) && LiveCopies(s) && Exclusive(s.places) && NothingVanishes(s)
  }

  lemma InitialSafe()
    ensures Safe(Initial)
  {
    OpenedConsistent(None);
  }

  lemma SavedSound(store: Store, t: Task)
    requires Consistent(store) && Keyed(store.cache) && t.deletedAt.None?
    ensures Consistent(Saved(store, t)) && Keyed(Saved(store, t).cache)
    ensures Saved(store, t).cache == store.cache[t.id := t]
  {
    SavedConsistent(store, t);
  }

  lemma DeletedSound(store: Store, id: TaskId, now: Time)
    requires Consistent(store) && Keyed(store.cache)
    ensures Consistent(Deleted(store, id, now)) && Deleted(store, id, now).cache == store.cache - {id}
    ensures Keyed(Deleted(store, id, now).cache)
  {
    if id in store.cache { SavedConsistent(store, MarkDeleted(store.cache[id], now)); }
  }

  /** Admission only adds heap copies of tasks that are not deleted. */
  lemma {:induction false} AdmitAllAdds(pl: Places, tasks: seq<Task>, now: Time)
    requires forall e | e in pl.copies :: e < pl.next
    ensures var pl' := AdmitAll(pl, tasks, now);
      && pl.next <= pl'.next && pl.queued <= pl'.queued && pl.executing == pl'.executing && pl.stuck == pl'.stuck
      && (forall e | e in pl'.copies :: e < pl'.next)
      && (forall e | e in pl.copies :: e in pl'.copies && pl'.copies[e] == pl.copies[e])
      && (forall e | e in pl'.copies && e !in pl.copies ::
            && pl'.copies[e].phase == InHeap && pl'.copies[e].task in tasks
            && pl'.copies[e].task.executeAt <= now && pl'.copies[e].task.retryAfterTime <= now
            && pl'.copies[e].task.deletedAt.None?
            && pl'.copies[e].task.id !in pl.queued && pl'.copies[e].task.id !in pl.executing)
  {
    if tasks != [] {
      AdmitAllAdds(pl, tasks[..|tasks| - 1], now);
    }
  }

  ghost predicate HistoryGrows(h: History, h': History) {
    h'.accepted == h.accepted && h.won <= h'.won && h.lost <= h'.lost
  }

  /** A copy moves on; its task is saved with it or the store is left alone. */
  lemma MoveSafe(s: State, s': State, e: Entry, t: Task, phase: Phase)
    requires Safe(s) && e in s.places.copies && t.id == TaskOf(s, e).id && t.deletedAt.None?
    requires IsQueued(phase) == IsQueued(s.places.copies[e].phase)
    requires s'.places == Advance(s.places, e, t, phase) && s'.dedupe.pending == s.dedupe.pending
    requires s'.store == s.store || s'.store == Saved(s.store, t)
    requires HistoryGrows(s.hist, s'.hist)
    requires HasOutcome(phase) ==> t.id in s'.hist.won || t.id in s'.hist.lost
    ensures Safe(s')
  {
    AdvanceExclusive(s.places, e, t, phase);
    SavedSound(s.store, t);
  }

  /** A copy goes away. */
  lemma DropSafe(s: State, s': State, e: Entry)
    requires Safe(s) && e in s.places.copies && Exclusive(s'.places)
    requires s'.places.copies == s.places.copies - {e}
    requires s'.store == s.store && s'.dedupe.pending == s.dedupe.pending && s'.hist == s.hist
    ensures Safe(s')
  {}

  lemma DispatchSafe(s: State, step: DispatchStep)
    requires Safe(s) && DispatchEnabled(s, step)
    ensures Safe(NextDispatch(s, step))
  {
    var s' := NextDispatch(s, step);
    match step
    case Acquire(pool) =>
    case Pop(pool, e) => MoveSafe(s, s', e, TaskOf(s, e), Popped);
    case PopEmpty(pool) =>
    case ExitDispatcher(pool) =>
    case Clear(e) => MoveSafe(s, s', e, TaskOf(s, e), Cleared);
    case Deny(e) => MoveSafe(s, s', e, TaskOf(s, e), Denied);
    case DeferSave(e, now) => MoveSafe(s, s', e, Deferral(TaskOf(s, e), now), Deferred);
    case DeferRemove(e) =>
      UnqueueExclusive(s.places, e);
      DropSafe(s, s', e);
    case Begin(e) => BeginSafe(s, s', e);
  }

  lemma BeginSafe(s: State, s': State, e: Entry)
    requires Safe(s) && e in s.places.copies && IsQueued(s.places.copies[e].phase)
    requires s'.places == Start(s.places, e)
    requires s'.store == s.store && s'.dedupe.pending == s.dedupe.pending && s'.hist == s.hist
    ensures Safe(s')
  {
    StartExclusive(s.places, e);
  }

  lemma RunStepSafe(s: State, step: RunStep)
    requires Safe(s) && RunEnabled(s, step)
    ensures Safe(NextRun(s, step))
  {
    hide Exclusive, NothingVanishes, StoreSound, Saved;
    var s' := NextRun(s, step);
    match step
    case CheckCompleted(e) =>
      if TaskOf(s, e).id in s.completed {
        AbandonExclusive(s.places, e);
        DropSafe(s, s', e);
      } else {
        MoveSafe(s, s', e, TaskOf(s, e), Handling);
      }
    case NoHandler(e) => MoveSafe(s, s', e, TaskOf(s, e), Leaving);
    case _ => AnswerSafe(s, step);
  }

  lemma AnswerSafe(s: State, step: RunStep)
    requires Safe(s) && RunEnabled(s, step) && !step.CheckCompleted? && !step.NoHandler?
    ensures Safe(NextRun(s, step))
  {
    hide Exclusive, NothingVanishes, StoreSound, Saved;
    var s' := NextRun(s, step);
    match step
    case Reschedule(e, next) => MoveSafe(s, s', e, Rescheduled(TaskOf(s, e), next), Leaving);
    case Succeed(e) => MoveSafe(s, s', e, TaskOf(s, e), Ending(true));
    case Fail(e, error, now) => MoveSafe(s, s', e, UpdateRetryConfig(TaskOf(s, e), Some(error), now), Leaving);
    case Exhaust(e) => MoveSafe(s, s', e, TaskOf(s, e), Ending(false));
  }

  lemma FinishSafe(s: State, step: FinishStep)
    requires Safe(s) && FinishEnabled(s, step)
    ensures Safe(NextFinish(s, step))
  {
    hide Exclusive, StoreSound;
    var s' := NextFinish(s, step);
    match step
    case RecordCompleted(e, now) => MoveSafe(s, s', e, TaskOf(s, e), Recorded(s.places.copies[e].phase.won));
    case Erase(e, now) => EraseSafe(s, s', e, now);
    case ReleaseHash(e) => MoveSafe(s, s', e, TaskOf(s, e), Gone);
    case Leave(e) =>
      VacateExclusive(s.places, e);
      DropSafe(s, s', e);
  }

  /** The only step that takes an id out of the log is taken by an execution whose
      final outcome is already known. */
  lemma EraseSafe(s: State, s': State, e: Entry, now: Time)
    requires Safe(s) && FinishEnabled(s, Erase(e, now)) && s' == NextFinish(s, Erase(e, now))
    ensures Safe(s')
  {
    var t := TaskOf(s, e);
    AdvanceExclusive(s.places, e, t, Erased);
    DeletedSound(s.store, t.id, now);
  }

  lemma BootSafe(s: State, file: Option<seq<Line>>)
    requires Safe(s) && forall id | id in s.store.cache :: id in Opened(file).cache
    ensures Safe(Booted(s, file))
  {
    OpenedConsistent(file);
  }

  lemma ReplayKeepsIds(s: State, target: string, clock: TaskId -> Time, order: seq<TaskId>)
    requires Safe(s) && s.store.file.Some? && Visits(order, ReplayCommand.Recovered(Lines(s.store), target, clock))
    ensures var log := Lines(s.store) + Written(ReplayCommand.Recovered(Lines(s.store), target, clock), order);
      forall id | id in s.store.cache :: id in Replay(log)
  {
    ReplayCommand.ReplayAddsExactlyTheFailed(Lines(s.store), target, clock, order);
  }

  lemma EnqueueSafe(s: State, step: EnqueueStep)
    requires Safe(s) && EnqueueEnabled(s, step)
    ensures Safe(NextEnqueue(s, step))
  {
    if step.EnqueueSave? { SavedSound(s.store, s.dedupe.pending[step.req]); }
  }

  lemma ScanSafe(s: State, step: ScanStep)
    requires Safe(s) && ScanEnabled(s, step)
    ensures Safe(NextScan(s, step))
  {
    if step.ScanAdmit? {
      AdmitAllExclusive(s.places, s.scan.tasks, step.now);
      AdmitAllAdds(s.places, s.scan.tasks, step.now);
    }
  }

  lemma CompactSafe(s: State, stamps: seq<Time>, order: seq<TaskId>)
    requires Safe(s) && OutsideEnabled(s, CompactLog(stamps, order))
    ensures Safe(NextOutside(s, CompactLog(stamps, order)))
  {
    CompactedSound(s.store, stamps, order);
    var s' := NextOutside(s, CompactLog(stamps, order));
    assert s' == s.(store := Compacted(s.store, stamps, order));
    hide Exclusive, Consistent, Keyed, Visits, Compacted, NextOutside;
  }

  lemma CompactedSound(store: Store, stamps: seq<Time>, order: seq<TaskId>)
    requires Consistent(store) && Keyed(store.cache)
    requires |stamps| == |Lines(store)| && Visits(order, CompactedMap(Lines(store), stamps))
    ensures var store' := Compacted(store, stamps, order);
      Consistent(store') && Keyed(store'.cache) && store'.cache.Keys == store.cache.Keys
  {
    CompactedConsistent(store, stamps, order);
    CompactionKeyed(Lines(store), stamps);
    hide Consistent, Keyed, Visits, CompactedMap;
  }

  lemma OutsideSafe(s: State, step: OutsideStep)
    requires Safe(s) && OutsideEnabled(s, step)
    ensures Safe(NextOutside(s, step))
  {
    hide Exclusive;
    match step
    case Evict(now) =>
    case Pause =>
    case CompactLog(stamps, order) => CompactSafe(s, stamps, order);
    case Crash => BootSafe(s, s.store.file);
    case CrashAndReplay(target, clock, order) =>
      ReplayKeepsIds(s, target, clock, order);
      BootSafe(s, Some(Lines(s.store) + Written(ReplayCommand.Recovered(Lines(s.store), target, clock), order)));
  }

  /** Every step, from any interleaving, keeps the whole of `Safe`. */
  lemma StepSafe(s: State, step: Step)
    requires Safe(s) && Enabled(s, step)
    ensures Safe(Next(s, step))
  {
    match step
    case Enqueue(x) => EnqueueSafe(s, x);
    case Process(x) => ScanSafe(s, x);
    case Dispatch(x) => DispatchSafe(s, x);
    case Execute(x) => RunStepSafe(s, x);
    case Finish(x) => FinishSafe(s, x);
    case Outside(x) => OutsideSafe(s, x);
  }

  lemma {:induction false} RunSafe(s: State, steps: seq<Step>)
    requires Safe(s) && PossibleRun(s, steps)
    ensures Safe(Run(s, steps))
    decreases |steps|
  {
    if steps != [] {
      StepSafe(s, steps[0]);
      RunSafe(Next(s, steps[0]), steps[1..]);
    }
  }

  /** At least once: in every run an accepted id is still live in the log on disk, or has
      been reported done, successfully or out of retries. */
  lemma AtLeastOnce(steps: seq<Step>, id: TaskId)
    requires PossibleRun(Initial, steps) && id in Run(Initial, steps).hist.accepted
    ensures var s := Run(Initial, steps);
      id in Replay(Lines(s.store)) || id in s.hist.won || id in s.hist.lost
  {
    InitialSafe();
    RunSafe(Initial, steps);
  }

  /** Exclusion: in every run `queued` and `executing` are disjoint; an id is queued
      exactly when one copy of it is in a heap or a dispatcher's hand; at most one handler
      runs per id, with the id in `executing`; and a task about to start is not already
      executing. */
  lemma AtMostOneHandler(steps: seq<Step>)
    requires PossibleRun(Initial, steps)
    ensures var s := Run(Initial, steps);
      && s.places.queued !! s.places.executing
      && (forall id :: id in s.places.queued <==> exists e :: Holds(s.places, e, id, true))
      && (forall e, f, id | Holds(s.places, e, id, true) && Holds(s.places, f, id, true) :: e == f)
      && (forall e, f | In(s, e, Handling) && In(s, f, Handling) && TaskOf(s, e).id == TaskOf(s, f).id :: e == f)
      && (forall e | In(s, e, Handling) :: TaskOf(s, e).id in s.places.executing)
      && (forall e | In(s, e, Cleared) :: TaskOf(s, e).id !in s.places.executing)
  {
    InitialSafe();
    RunSafe(Initial, steps);
    var s := Run(Initial, steps);
    SetsDisjoint(s.places);
    forall e | In(s, e, Handling) ensures TaskOf(s, e).id in s.places.executing {
      assert Holds(s.places, e, TaskOf(s, e).id, false);
    }
    forall e | In(s, e, Cleared) ensures TaskOf(s, e).id !in s.places.executing {
      DuplicateDropUnreachable(s.places, e);
    }
  }

  // ---- At least once for each acceptance, when ids are reused ----

  /** The ids accepted again since their last reported outcome, one step on. */
  ghost function OwedNext(s: State, owed: set<TaskId>, step: Step): set<TaskId>
    requires Enabled(s, step)
  {
    match step
    case Enqueue(EnqueueSave(req)) => owed + {s.dedupe.pending[req].id}
    case Execute(Succeed(e)) => owed - {TaskOf(s, e).id}
    case Execute(Exhaust(e)) => owed - {TaskOf(s, e).id}
    case _ => owed
  }

  ghost function Owed(s: State, owed: set<TaskId>, steps: seq<Step>): set<TaskId>
    requires PossibleRun(s, steps)
    decreases |steps|
  {
    if steps == [] then owed else Owed(Next(s, steps[0]), OwedNext(s, owed, steps[0]), steps[1..])
  }

  /** The tombstone of an execution that has had its outcome is about to fall on an id that
      has been accepted again since. */
  ghost predicate ErasesOwed(s: State, owed: set<TaskId>, step: Step)
    requires Enabled(s, step)
  {
    step.Finish? && step.finish.Erase? && TaskOf(s, step.finish.e).id in owed
  }

  /** In every point of the run each owed id is live. */
  ghost predicate OwedLive(s: State, owed: set<TaskId>, steps: seq<Step>)
    requires PossibleRun(s, steps)
    decreases |steps|
  {
    owed <= Replay(Lines(s.store)).Keys
    && (steps == [] || OwedLive(Next(s, steps[0]), OwedNext(s, owed, steps[0]), steps[1..]))
  }

  ghost predicate NeverErasesOwed(s: State, owed: set<TaskId>, steps: seq<Step>)
    requires PossibleRun(s, steps)
    decreases |steps|
  {
    steps == [] || (!ErasesOwed(s, owed, steps[0])
                    && NeverErasesOwed(Next(s, steps[0]), OwedNext(s, owed, steps[0]), steps[1..]))
  }

  lemma DispatchKeepsIds(s: State, step: DispatchStep)
    requires LiveCopies(s) && DispatchEnabled(s, step)
    ensures s.store.cache.Keys <= NextDispatch(s, step).store.cache.Keys
  {}

  lemma AnswerKeepsIds(s: State, step: RunStep)
    requires LiveCopies(s) && RunEnabled(s, step)
    ensures s.store.cache.Keys <= NextRun(s, step).store.cache.Keys
  {}

  lemma EraseLosesOne(s: State, e: Entry, now: Time)
    requires StoreSound(s) && FinishEnabled(s, Erase(e, now))
    ensures NextFinish(s, Erase(e, now)).store.cache.Keys == s.store.cache.Keys - {TaskOf(s, e).id}
  {
    DeletedSound(s.store, TaskOf(s, e).id, now);
  }

  /** A step loses an owed id exactly when it erases one. */
  lemma OwedStep(s: State, owed: set<TaskId>, step: Step)
    requires Safe(s) && Enabled(s, step) && owed <= s.store.cache.Keys
    ensures OwedNext(s, owed, step) <= Next(s, step).store.cache.Keys <==> !ErasesOwed(s, owed, step)
  {
    assert LiveCopies(s) && StoreSound(s);
    hide Safe, Exclusive, NothingVanishes, LiveCopies, StoreSound;
    match step
    case Outside(x) => OutsideKeepsIds(s, x);
    case Dispatch(x) => hide NextDispatch; DispatchKeepsIds(s, x);
    case Execute(x) => hide NextRun; AnswerKeepsIds(s, x);
    case Finish(x) => if x.Erase? { EraseLosesOne(s, x.e, x.now); }
    case Process(_) =>
    case Enqueue(x) => EnqueueKeepsIds(s, x);
  }

  lemma EnqueueKeepsIds(s: State, step: EnqueueStep)
    requires LiveCopies(s) && EnqueueEnabled(s, step)
    ensures NextEnqueue(s, step).store.cache.Keys
      == s.store.cache.Keys + if step.EnqueueSave? then {s.dedupe.pending[step.req].id} else {}
  {}

  lemma OutsideKeepsIds(s: State, step: OutsideStep)
    requires Safe(s) && OutsideEnabled(s, step)
    ensures s.store.cache.Keys <= NextOutside(s, step).store.cache.Keys
  {
    match step
    case CompactLog(stamps, order) => CompactedConsistent(s.store, stamps, order);
    case CrashAndReplay(target, clock, order) => ReplayKeepsIds(s, target, clock, order);
    case _ =>
  }

  lemma {:induction false} OwedRun(s: State, owed: set<TaskId>, steps: seq<Step>)
    requires Safe(s) && owed <= s.store.cache.Keys && PossibleRun(s, steps)
    ensures OwedLive(s, owed, steps) <==> NeverErasesOwed(s, owed, steps)
    decreases |steps|
  {
    assert s.store.cache == Replay(Lines(s.store));
    hide Safe, OwedNext, ErasesOwed;
    if steps != [] {
      var s', owed' := Next(s, steps[0]), OwedNext(s, owed, steps[0]);
      OwedStep(s, owed, steps[0]);
      StepSafe(s, steps[0]);
      if owed' <= s'.store.cache.Keys {
        OwedRun(s', owed', steps[1..]);
      } else {
        SoundCache(s');
      }
    }
  }

  lemma SoundCache(s: State)
    requires Safe(s)
    ensures s.store.cache == Replay(Lines(s.store))
  {}

  /** At least once for every acceptance: in every run, ids reused, an id accepted since its
      last reported outcome is live in the log at every point, if and only if no tombstone
      is ever written for an id that was accepted again between the outcome and the
      tombstone. */
  lemma AtLeastOnceEachTime(steps: seq<Step>)
    requires PossibleRun(Initial, steps)
    ensures OwedLive(Initial, {}, steps) <==> NeverErasesOwed(Initial, {}, steps)
  {
    InitialSafe();
    OwedRun(Initial, {}, steps);
  }

  /** In every run, stale scans and all: a process that dies loses its heaps, both id sets,
      the completed entries and its pause, and no live task; the next one starts from the
      same log with the hashes of exactly its live tasks active. */
  lemma RestartRebuilds(steps: seq<Step>)
    requires PossibleRun(Initial, steps)
    ensures var s := Run(Initial, steps);
      var s' := Next(s, Outside(Crash));
      && s'.store.file == s.store.file && s'.store.cache == s.store.cache
      && s'.places.copies == map[] && s'.places.queued == {} && s'.places.executing == {}
      && s'.completed == map[] && s'.dedupe.pending == map[] && s'.scan.Idle? && !s'.paused
      && s'.threads == Threads(multiset{}, multiset{}, multiset{}, multiset{}) && s'.hist == s.hist
      && forall h :: h in s'.dedupe.active <==>
           exists id :: id in s.store.cache && s.store.cache[id].payloadHash == Some(h)
  {
    InitialSafe();
    RunSafe(Initial, steps);
    var s := Run(Initial, steps);
    assert StoreSound(s);
    hide Safe, Run, PossibleRun;
    forall h ensures h in HashesOf(s.store.cache) <==>
      exists id :: id in s.store.cache && s.store.cache[id].payloadHash == Some(h) {}
  }
}
