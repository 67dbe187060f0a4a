/** The scheduler of one shard engine as a state machine (src/queue.rs).

    Every section the program runs under one lock, and every file-store call, is one
    step; the threads between them interleave freely. The store is the log and cache of
    module FileStore. A crash loses everything but the log. */
module Scheduler {
  import opened Tasks
  import opened Log
  import opened FileStore
  import opened Placement
  import ReplayCommand

  /** The processor thread: idle, holding a snapshot of the cache, or past admission
      with pools still to look at. */
  datatype Processor = Idle | Read(tasks: seq<Task>) | Spawning(pools: set<string>)

  /** Dispatcher threads that hold no task, by pool, and the per-pool thread counters. */
  datatype Threads = Threads(
    waiting: multiset<string>,   // for a permit
    ready: multiset<string>,     // with a permit
    exiting: multiset<string>,   // permit dropped, counter not yet decremented
    counts: multiset<string>)

  /** `active_hashes`, and the enqueue calls between their hash check and their save. */
  datatype Dedupe = Dedupe(active: set<Hash>, pending: map<nat, Task>)

  datatype Death = Death(id: TaskId, failure: nat, maxRetries: Int32)

  /** What has happened so far. `won` and `lost` are final outcomes reported, `finished`
      and `dead` final outcomes whose tombstone is written, `failures` the saved failures
      of each id since it was enqueued or last rescheduled by cron. */
  datatype History = History(
    accepted: set<TaskId>,
    won: set<TaskId>,
    lost: set<TaskId>,
    finished: set<TaskId>,
    dead: set<TaskId>,
    failures: map<TaskId, nat>,
    deaths: set<Death>)

  datatype State = State(
    store: Store,
    places: Places,
    completed: map<TaskId, Time>,
    dedupe: Dedupe,
    threads: Threads,
    scan: Processor,
    paused: bool,
    hist: History)

  const Initial: State := State(
    Opened(None), Nowhere, map[], Dedupe({}, map[]),
    Threads(multiset{}, multiset{}, multiset{}, multiset{}), Idle, false,
    History({}, {}, {}, {}, {}, map[], {}))

  const COMPLETED_TTL: int := 60 * SECOND

  /** `enqueue`: the hash check, then the save. */
  datatype EnqueueStep =
    | EnqueueCheck(req: nat, task: Task)
    | EnqueueSave(req: nat)

  /** `process_due_tasks`. */
  datatype ScanStep =
    | ScanRead(tasks: seq<Task>)
    | ScanAdmit(now: Time)
    | ScanSpawn(pool: string)
    | ScanDone

  /** The loop of `spawn_dispatcher`. */
  datatype DispatchStep =
    | Acquire(pool: string)
    | Pop(pool: string, e: Entry)
    | PopEmpty(pool: string)
    | ExitDispatcher(pool: string)
    | Clear(e: Entry)
    | Deny(e: Entry)
    | DeferSave(e: Entry, now: Time)
    | DeferRemove(e: Entry)
    | Begin(e: Entry)

  /** `execute_task` up to the handler's outcome. */
  datatype RunStep =
    | CheckCompleted(e: Entry)
    | NoHandler(e: Entry)
    | Reschedule(e: Entry, next: Time)
    | Succeed(e: Entry)
    | Fail(e: Entry, error: string, now: Time)
    | Exhaust(e: Entry)

  /** `execute_task` after the outcome. */
  datatype FinishStep =
    | RecordCompleted(e: Entry, now: Time)
    | Erase(e: Entry, now: Time)
    | ReleaseHash(e: Entry)
    | Leave(e: Entry)

  /** The sweeper, the heartbeat or shutdown, background compaction, and process death. */
  datatype OutsideStep =
    | Evict(now: Time)
    | Pause
    | CompactLog(stamps: seq<Time>, order: seq<TaskId>)
    | Crash
    | CrashAndReplay(target: string, clock: TaskId -> Time, order: seq<TaskId>)

  datatype Step =
    | Enqueue(enqueue: EnqueueStep)
    | Process(scan: ScanStep)
    | Dispatch(dispatch: DispatchStep)
    | Execute(run: RunStep)
    | Finish(finish: FinishStep)
    | Outside(outside: OutsideStep)

  predicate In(s: State, e: Entry, phase: Phase) {
    e in s.places.copies && s.places.copies[e].phase == phase
  }

  function TaskOf(s: State, e: Entry): Task
    requires e in s.places.copies
  {
    s.places.copies[e].task
  }

  /** What the processor looks at before it spawns a dispatcher for a pool. */
  ghost predicate WantsDispatcher(copies: map<Entry, Copy>, counts: multiset<string>, pool: string) {
    (exists e :: InHeapOf(copies, e, pool)) && counts[pool] < 2
  }

  ghost predicate EnqueueEnabled(s: State, step: EnqueueStep) {
    match step
    case EnqueueCheck(req, task) => !s.paused && req !in s.dedupe.pending
    case EnqueueSave(req) => req in s.dedupe.pending
  }

  ghost predicate ScanEnabled(s: State, step: ScanStep) {
    match step
    case ScanRead(tasks) =>
      && !s.paused && s.scan.Idle?
      && (forall t :: t in tasks <==> t.id in s.store.cache && s.store.cache[t.id] == t)
    case ScanAdmit(now) => s.scan.Read?
    case ScanSpawn(pool) => s.scan.Spawning? && pool in s.scan.pools
    case ScanDone => s.scan.Spawning? && s.scan.pools == {}
  }

  ghost predicate DispatchEnabled(s: State, step: DispatchStep) {
    match step
    case Acquire(pool) => pool in s.threads.waiting
    case Pop(pool, e) =>
      && pool in s.threads.ready && InHeapOf(s.places.copies, e, pool)
      && (forall f | InHeapOf(s.places.copies, f, pool) :: Urgency(TaskOf(s, f)) <= Urgency(TaskOf(s, e)))
    case PopEmpty(pool) => pool in s.threads.ready && forall e :: !InHeapOf(s.places.copies, e, pool)
    case ExitDispatcher(pool) => pool in s.threads.exiting
    case Clear(e) => In(s, e, Popped)
    case Deny(e) => In(s, e, Popped) && TaskOf(s, e).rateLimitGroup.Some? && TaskOf(s, e).maxPerMinute.Some?
    case DeferSave(e, now) => In(s, e, Denied)
    case DeferRemove(e) => In(s, e, Deferred)
    case Begin(e) => In(s, e, Cleared)
  }

  ghost predicate RunEnabled(s: State, step: RunStep) {
    match step
    case CheckCompleted(e) => In(s, e, Spawned)
    case NoHandler(e) => In(s, e, Handling)
    case Reschedule(e, next) => In(s, e, Handling) && TaskOf(s, e).cron.Some?
    case Succeed(e) => In(s, e, Handling)
    case Fail(e, error, now) => In(s, e, Handling) && RetryAllowed(TaskOf(s, e))
    case Exhaust(e) => In(s, e, Handling) && !RetryAllowed(TaskOf(s, e))
  }

  ghost predicate FinishEnabled(s: State, step: FinishStep) {
    match step
    case RecordCompleted(e, now) => e in s.places.copies && s.places.copies[e].phase.Ending?
    case Erase(e, now) => e in s.places.copies && s.places.copies[e].phase.Recorded?
    case ReleaseHash(e) => In(s, e, Erased)
    case Leave(e) => In(s, e, Gone) || In(s, e, Leaving)
  }

  ghost predicate OutsideEnabled(s: State, step: OutsideStep) {
    match step
    case Evict(now) => true
    case Pause => true
    case CompactLog(stamps, order) =>
      |stamps| == |Lines(s.store)| && Visits(order, CompactedMap(Lines(s.store), stamps))
    case Crash => true
    case CrashAndReplay(target, clock, order) =>
      s.store.file.Some? && Visits(order, ReplayCommand.Recovered(Lines(s.store), target, clock))
  }

  ghost predicate Enabled(s: State, step: Step) {
    match step
    case Enqueue(x) => EnqueueEnabled(s, x)
    case Process(x) => ScanEnabled(s, x)
    case Dispatch(x) => DispatchEnabled(s, x)
    case Execute(x) => RunEnabled(s, x)
    case Finish(x) => FinishEnabled(s, x)
    case Outside(x) => OutsideEnabled(s, x)
  }

  function Failures(h: History, id: TaskId): nat {
    if id in h.failures then h.failures[id] else 0
  }

  /** The hashes a booting engine starts from. */
  function HashesOf(m: Live): set<Hash> {
    set id | id in m && m[id].payloadHash.Some? :: m[id].payloadHash.value
  }

  function SaveIn(s: State, t: Task): State {
    s.(store := Saved(s.store, t))
  }

  function MoveTo(s: State, e: Entry, t: Task, phase: Phase): State
    requires e in s.places.copies && t.id == TaskOf(s, e).id
    requires IsQueued(phase) == IsQueued(s.places.copies[e].phase)
  {
    s.(places := Advance(s.places, e, t, phase))
  }

  /** Pools into which the admission of `tasks` pushes something. */
  function PoolsFed(pl: Places, tasks: seq<Task>, now: Time): set<string> {
    if tasks == [] then {}
    else
      var before, t := AdmitAll(pl, tasks[..|tasks| - 1], now), tasks[|tasks| - 1];
      PoolsFed(pl, tasks[..|tasks| - 1], now) + if Admit(before, t, now) == before then {} else {PoolOf(t)}
  }

  function Deferral(t: Task, now: Time): Task {
    t.(retryAfterTime := now + 60 * SECOND)
  }

  function Rescheduled(t: Task, next: Time): Task {
    t.(executeAt := next, retryCount := 0, lastError := None, lastJobError := None)
  }

  /** A fresh process on the log that is on disk. */
  function Booted(s: State, file: Option<seq<Line>>): State {
    var store := Opened(file);
    Initial.(store := store, dedupe := Dedupe(HashesOf(store.cache), map[]), hist := s.hist)
  }

  ghost function NextEnqueue(s: State, step: EnqueueStep): State
    requires EnqueueEnabled(s, step)
  {
    match step
    case EnqueueCheck(req, task) =>
      if task.payloadHash.Some? && task.payloadHash.value in s.dedupe.active then s
      else s.(dedupe := Dedupe(
          if task.payloadHash.Some? then s.dedupe.active + {task.payloadHash.value} else s.dedupe.active,
          s.dedupe.pending[req := task.(deletedAt := None)]))
    case EnqueueSave(req) =>
      var t := s.dedupe.pending[req];
      SaveIn(s, t).(dedupe := s.dedupe.(pending := s.dedupe.pending - {req}),
                  hist := s.hist.(accepted := s.hist.accepted + {t.id}, failures := s.hist.failures[t.id := 0]))
  }

  ghost function NextScan(s: State, step: ScanStep): State
    requires ScanEnabled(s, step)
  {
    match step
    case ScanRead(tasks) => s.(scan := Read(tasks))
    case ScanAdmit(now) =>
      s.(places := AdmitAll(s.places, s.scan.tasks, now), scan := Spawning(PoolsFed(s.places, s.scan.tasks, now)))
    case ScanSpawn(pool) =>
      var scan := Spawning(s.scan.pools - {pool});
      if WantsDispatcher(s.places.copies, s.threads.counts, pool) then
        s.(scan := scan, threads := s.threads.(waiting := s.threads.waiting + multiset{pool},
                                               counts := s.threads.counts + multiset{pool}))
      else s.(scan := scan)
    case ScanDone => s.(scan := Idle)
  }

  ghost function NextDispatch(s: State, step: DispatchStep): State
    requires DispatchEnabled(s, step)
  {
    match step
    case Acquire(pool) =>
      s.(threads := s.threads.(waiting := s.threads.waiting - multiset{pool},
                               ready := s.threads.ready + multiset{pool}))
    case Pop(pool, e) =>
      MoveTo(s, e, TaskOf(s, e), Popped).(threads := s.threads.(ready := s.threads.ready - multiset{pool}))
    case PopEmpty(pool) =>
      s.(threads := s.threads.(ready := s.threads.ready - multiset{pool},
                               exiting := s.threads.exiting + multiset{pool}))
    case ExitDispatcher(pool) =>
      s.(threads := s.threads.(exiting := s.threads.exiting - multiset{pool},
                               counts := s.threads.counts - multiset{pool}))
    case Clear(e) => MoveTo(s, e, TaskOf(s, e), Cleared)
    case Deny(e) => MoveTo(s, e, TaskOf(s, e), Denied)
    case DeferSave(e, now) =>
      var t := Deferral(TaskOf(s, e), now);
      SaveIn(MoveTo(s, e, t, Deferred), t)
    case DeferRemove(e) =>
      s.(places := Unqueue(s.places, e),
         threads := s.threads.(waiting := s.threads.waiting + multiset{PoolOf(TaskOf(s, e))}))
    case Begin(e) =>
      s.(places := Start(s.places, e),
         threads := s.threads.(waiting := s.threads.waiting + multiset{PoolOf(TaskOf(s, e))}))
  }

  ghost function NextRun(s: State, step: RunStep): State
    requires RunEnabled(s, step)
  {
    match step
    case CheckCompleted(e) =>
      if TaskOf(s, e).id in s.completed then s.(places := Abandon(s.places, e))
      else MoveTo(s, e, TaskOf(s, e), Handling)
    case NoHandler(e) => MoveTo(s, e, TaskOf(s, e), Leaving)
    case Reschedule(e, next) =>
      var t := Rescheduled(TaskOf(s, e), next);
      SaveIn(MoveTo(s, e, t, Leaving), t).(hist := s.hist.(failures := s.hist.failures[t.id := 0]))
    case Succeed(e) =>
      MoveTo(s, e, TaskOf(s, e), Ending(true)).(hist := s.hist.(won := s.hist.won + {TaskOf(s, e).id}))
    case Fail(e, error, now) =>
      var t := UpdateRetryConfig(TaskOf(s, e), Some(error), now);
      SaveIn(MoveTo(s, e, t, Leaving), t).(
        hist := s.hist.(failures := s.hist.failures[t.id := Failures(s.hist, t.id) + 1]))
    case Exhaust(e) =>
      var t := TaskOf(s, e);
      MoveTo(s, e, t, Ending(false)).(
        hist := s.hist.(lost := s.hist.lost + {t.id},
                        deaths := s.hist.deaths + {Death(t.id, Failures(s.hist, t.id) + 1, t.maxRetries)}))
  }

  ghost function NextFinish(s: State, step: FinishStep): State
    requires FinishEnabled(s, step)
  {
    match step
    case RecordCompleted(e, now) =>
      MoveTo(s, e, TaskOf(s, e), Recorded(s.places.copies[e].phase.won)).(
        completed := s.completed[TaskOf(s, e).id := now])
    case Erase(e, now) =>
      var t := TaskOf(s, e);
      MoveTo(s, e, t, Erased).(
        store := Deleted(s.store, t.id, now),
        hist := if s.places.copies[e].phase.won then s.hist.(finished := s.hist.finished + {t.id})
                else s.hist.(dead := s.hist.dead + {t.id}))
    case ReleaseHash(e) =>
      var t := TaskOf(s, e);
      MoveTo(s, e, t, Gone).(
        dedupe := if t.payloadHash.Some? then s.dedupe.(active := s.dedupe.active - {t.payloadHash.value})
                  else s.dedupe)
    case Leave(e) => s.(places := Vacate(s.places, e))
  }

  ghost function NextOutside(s: State, step: OutsideStep): State
    requires OutsideEnabled(s, step)
  {
    match step
    case Evict(now) =>
      s.(completed := map id | id in s.completed && now - s.completed[id] < COMPLETED_TTL :: s.completed[id])
    case Pause => s.(paused := true)
    case CompactLog(stamps, order) => s.(store := Compacted(s.store, stamps, order))
    case Crash => Booted(s, s.store.file)
    case CrashAndReplay(target, clock, order) =>
      Booted(s, Some(Lines(s.store) + Written(ReplayCommand.Recovered(Lines(s.store), target, clock), order)))
  }

  ghost function Next(s: State, step: Step): State
    requires Enabled(s, step)
  {
    match step
    case Enqueue(x) => NextEnqueue(s, x)
    case Process(x) => NextScan(s, x)
    case Dispatch(x) => NextDispatch(s, x)
    case Execute(x) => NextRun(s, x)
    case Finish(x) => NextFinish(s, x)
    case Outside(x) => NextOutside(s, x)
  }

  ghost predicate PossibleRun(s: State, steps: seq<Step>)
    decreases |steps|
  {
    steps == [] || (Enabled(s, steps[0]) && PossibleRun(Next(s, steps[0]), steps[1..]))
  }

  ghost function Run(s: State, steps: seq<Step>): State
    requires PossibleRun(s, steps)
    decreases |steps|
  {
    if steps == [] then s else Run(Next(s, steps[0]), steps[1..])
  }
}
