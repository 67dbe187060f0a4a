/** The queue object as the program keeps it: sets and maps behind mutexes, updated in
    place. Each method is one locked section, or a sequence of them, of src/queue.rs, and
    is specified by the steps of module Scheduler. */
module Queue {
  import opened Tasks
  import opened Log
  import opened FileStore
  import opened Placement
  import opened Scheduler
  import opened SchedulerSafety
  import opened RateLimiting
  import opened SchedulerAccounts

  datatype EnqueueResult = Rejected | Dropped | Accepted

  datatype Outcome = Unhandled | Ok | Err(error: string)

  /** `execute_task` from start to end, as scheduler steps. `tick` is the next cron tick, if
      the task's schedule has one. */
  ghost function Executed(s: State, e: Entry, outcome: Outcome, tick: Option<Time>, now: Time): State
    requires In(s, e, Spawned)
  {
    var s1 := NextRun(s, CheckCompleted(e));
    if TaskOf(s, e).id in s.completed then s1 else Answered(s1, e, outcome, tick, now)
  }

  ghost function Answered(s: State, e: Entry, outcome: Outcome, tick: Option<Time>, now: Time): State
    requires In(s, e, Handling)
  {
    match outcome
    case Unhandled => NextFinish(NextRun(s, NoHandler(e)), Leave(e))
    case Ok =>
      if TaskOf(s, e).cron.Some? && tick.Some? then NextFinish(NextRun(s, Reschedule(e, tick.value)), Leave(e))
      else Concluded(NextRun(s, Succeed(e)), e, now)
    case Err(error) =>
      if RetryAllowed(TaskOf(s, e)) then NextFinish(NextRun(s, Fail(e, error, now)), Leave(e))
      else Concluded(NextRun(s, Exhaust(e)), e, now)
  }

  /** A running copy saved in its new form, about to leave. */
  ghost function SavedAgain(s: State, e: Entry, t: Task, failures: nat): State
    requires In(s, e, Handling) && t.id == TaskOf(s, e).id
  {
    SaveIn(MoveTo(s, e, t, Leaving), t).(hist := s.hist.(failures := s.hist.failures[t.id := failures]))
  }

  /** Completed set, tombstone, hash, guard. */
  ghost function Concluded(s: State, e: Entry, now: Time): State
    requires e in s.places.copies && s.places.copies[e].phase.Ending?
  {
    NextFinish(NextFinish(NextFinish(NextFinish(s, RecordCompleted(e, now)), Erase(e, now)), ReleaseHash(e)), Leave(e))
  }

  /** A refused task saved with a later retry time, its copy and its queued mark gone. */
  ghost function PutOff(s: State, e: Entry, now: Time): State
    requires e in s.places.copies
  {
    SaveIn(s, Deferral(TaskOf(s, e), now)).(
      places := Unqueue(s.places, e),
      threads := s.threads.(waiting := s.threads.waiting + multiset{PoolOf(TaskOf(s, e))}))
  }

  /** That is the three steps of a refusal in a row. */
  lemma PutOffIsThreeSteps(s: State, e: Entry, now: Time)
    requires DispatchEnabled(s, Deny(e))
    ensures NextDispatch(NextDispatch(NextDispatch(s, Deny(e)), DeferSave(e, now)), DeferRemove(e)) == PutOff(s, e, now)
  {
    var s1 := NextDispatch(s, Deny(e));
    assert s1 == MoveTo(s, e, TaskOf(s, e), Denied);
    var s2 := NextDispatch(s1, DeferSave(e, now));
    assert s2 == SaveIn(MoveTo(s1, e, Deferral(TaskOf(s, e), now), Deferred), Deferral(TaskOf(s, e), now));
    assert s2.places.copies - {e} == s.places.copies - {e};
  }

  /** A task whose hash is free, saved with its hash claimed. */
  ghost function TakenIn(s: State, task: Task): State {
    SaveIn(s, task.(deletedAt := None)).(
      dedupe := s.dedupe.(
        active := s.dedupe.active + if task.payloadHash.Some? then {task.payloadHash.value} else {}),
      hist := s.hist.(accepted := s.hist.accepted + {task.id}, failures := s.hist.failures[task.id := 0]))
  }

  /** That is the two steps of an enqueue in a row. */
  lemma EnqueueIsTwoSteps(s: State, req: nat, task: Task)
    requires EnqueueEnabled(s, EnqueueCheck(req, task))
    requires task.payloadHash.Some? ==> task.payloadHash.value !in s.dedupe.active
    ensures NextEnqueue(NextEnqueue(s, EnqueueCheck(req, task)), EnqueueSave(req)) == TakenIn(s, task)
  {
    hide Saved;
    assert s.dedupe.pending[req := task.(deletedAt := None)] - {req} == s.dedupe.pending;
  }

  /** Some task in a heap names the pool, or names none and the pool is the default one. */
  ghost predicate HeapHolds(copies: map<Entry, Copy>, pool: string) {
    exists e :: InHeapFor(copies, e, pool)
  }

  predicate InHeapFor(copies: map<Entry, Copy>, e: Entry, pool: string) {
    && e in copies && copies[e].phase == InHeap
    && (copies[e].task.pool == Some(pool) || (copies[e].task.pool.None? && pool == "default"))
  }

  lemma WantsExactly(copies: map<Entry, Copy>, counts: multiset<string>, pool: string)
    ensures WantsDispatcher(copies, counts, pool) <==> HeapHolds(copies, pool) && counts[pool] < 2
  {
    if e :| InHeapFor(copies, e, pool) { assert InHeapOf(copies, e, pool); }
    if e :| InHeapOf(copies, e, pool) { assert InHeapFor(copies, e, pool); }
  }

  /** What a popped task does to the limiter's file, and whether it is let through: a task
      with both a group and a limit changes its group's window only, and passes exactly when
      the window counts it within its limit; any other task leaves the file as it was. */
  ghost predicate Limited(t: Task, file: Option<Limits>, file': Option<Limits>, passed: bool) {
    match (t.rateLimitGroup, t.maxPerMinute)
    case (Some(group), Some(limit)) =>
      var limits, limits' := if file.Some? then file.value else map[], if file'.Some? then file'.value else map[];
      && file'.Some? && group in limits' && limits' == limits[group := limits'[group]]
      && (if passed then limits'[group].count <= limit else limits'[group].count >= limit)
      && (group in limits && limits'[group].start == limits[group].start ==>
            limits'[group].count == limits[group].count + if passed then 1 else 0)
    case _ => file' == file && passed
  }

  lemma LimitedExact(t: Task, file: Option<Limits>, file': Option<Limits>, now: Time)
    requires if Asks(t) then file'.Some? else file' == file
    requires (if file'.Some? then file'.value else map[]) ==
      LimitsNext(if file.Some? then file.value else map[], t, now)
    ensures Limited(t, file, file', Passes(if file.Some? then file.value else map[], t, now))
  {}

  class SnerdQueue {
    const log: TaskFile
    var copies: map<Entry, Copy>
    var next: Entry
    var queued: set<TaskId>
    var executing: set<TaskId>
    var completed: map<TaskId, Time>
    var active: set<Hash>
    var threads: Threads
    var scan: Processor
    var paused: bool
    ghost var stuck: set<TaskId>
    ghost var pending: map<nat, Task>
    ghost var hist: History

    ghost function Where(): Places
      reads this
    {
      Places(copies, next, queued, executing, stuck)
    }

    ghost function View(): State
      reads this, log
    {
      State(log.View(), Where(), completed, Dedupe(active, pending), threads, scan, paused, hist)
    }

    ghost predicate Valid()
      reads this, log
    {
      log.Valid()
    }

    /** A fresh engine on an open log starts from the hashes of its live tasks. */
    constructor (log: TaskFile)
      requires log.Valid()
      ensures Valid() && this.log == log
      ensures active == HashesOf(log.cache) && pending == map[]
      ensures Where() == Nowhere && completed == map[] && threads == Initial.threads && scan == Idle && !paused
    {
      this.log := log;
      copies, next, queued, executing, completed := map[], 0, {}, {}, map[];
      threads, scan, paused := Initial.threads, Idle, false;
      active, stuck, pending, hist := {}, {}, map[], Initial.hist;
      new;
      var tasks := log.ReadTasks();
      for i := 0 to |tasks|
        invariant active ==
          set j | 0 <= j < i && tasks[j].deletedAt.None? && tasks[j].payloadHash.Some? :: tasks[j].payloadHash.value
        invariant pending == map[] && Where() == Nowhere && completed == map[]
        invariant threads == Initial.threads && scan == Idle && !paused
        invariant log.Valid()
      {
        if tasks[i].deletedAt.None? && tasks[i].payloadHash.Some? {
          active := active + {tasks[i].payloadHash.value};
        }
      }
      ReplayKeyed(Lines(log.View()));
      assert forall id | id in log.cache :: log.cache[id] in tasks;
    }

    /** Rejected while paused, silently dropped when the hash is active, otherwise saved. */
    method Enqueue(task: Task) returns (r: EnqueueResult)
      requires Valid()
      modifies this`active, this`hist, log
      ensures Valid()
      ensures r == (if old(paused) then Rejected
                    else if task.payloadHash.Some? && task.payloadHash.value in old(active) then Dropped
                    else Accepted)
      ensures r != Accepted ==> View() == old(View())
      ensures r == Accepted ==> log.cache == old(log.cache)[task.id := task.(deletedAt := None)]
      ensures r == Accepted ==>
        active == old(active) + if task.payloadHash.Some? then {task.payloadHash.value} else {}
      ensures r == Accepted ==> View() == TakenIn(old(View()), task)
    {
      if paused {
        return Rejected;
      }
      if task.payloadHash.Some? {
        if task.payloadHash.value in active {
          return Dropped;
        }
        active := active + {task.payloadHash.value};
      }
      var saved := task.(deletedAt := None);
      log.SaveTask(saved);
      hist := hist.(accepted := hist.accepted + {task.id}, failures := hist.failures[task.id := 0]);
      r := Accepted;
      assert log.cache == old(log.cache)[task.id := saved];
    }

    // ---- process_due_tasks ----

    method ReadSnapshot()
      requires Valid() && scan == Idle
      modifies this`scan
      ensures paused ==> View() == old(View())
      ensures !paused ==> scan.Read? && forall t :: t in scan.tasks <==> t.id in log.cache && log.cache[t.id] == t
      ensures !paused ==> exists tasks ::
        ScanEnabled(old(View()), ScanRead(tasks)) && View() == NextScan(old(View()), ScanRead(tasks))
    {
      if paused {
        return;
      }
      var tasks := log.ReadTasks();
      assert ScanEnabled(View(), ScanRead(tasks));
      scan := Read(tasks);
    }

    method AdmitDue(now: Time)
      requires Valid() && scan.Read?
      modifies this`scan, this`copies, this`next, this`queued
      ensures View() == NextScan(old(View()), ScanAdmit(now))
    {
      hide Admit, Due, InHeapOf, Valid;
      var tasks := scan.tasks;
      var pools: set<string> := {};
      for i := 0 to |tasks|
        invariant unchanged(this`scan)
        invariant Where() == AdmitAll(old(Where()), tasks[..i], now)
        invariant pools == PoolsFed(old(Where()), tasks[..i], now)
      {
        assert tasks[..i + 1][..i] == tasks[..i] && tasks[..i + 1][i] == tasks[i];
        var fed := AdmitOne(tasks[i], now);
        if fed {
          pools := pools + {PoolOf(tasks[i])};
        }
      }
      assert tasks[..|tasks|] == tasks;
      scan := Spawning(pools);
    }

    method AdmitOne(task: Task, now: Time) returns (fed: bool)
      modifies this`copies, this`next, this`queued
      ensures Where() == Admit(old(Where()), task, now)
      ensures fed <==>
        && task.executeAt <= now && task.retryAfterTime <= now && task.deletedAt.None?
        && task.id !in old(executing) && task.id !in old(queued)
      ensures fed ==> copies == old(copies)[old(next) := Copy(task, InHeap)] && queued == old(queued) + {task.id}
      ensures !fed ==> Where() == old(Where())
    {
      fed := task.executeAt <= now && task.retryAfterTime <= now && task.deletedAt.None?
             && task.id !in executing && task.id !in queued;
      if fed {
        queued := queued + {task.id};
        copies := copies[next := Copy(task, InHeap)];
        next := next + 1;
      }
    }

    /** One dispatcher more for each pool just fed that has heap copies and fewer than two. */
    method StartDispatchers()
      requires Valid() && scan.Spawning?
      modifies this`scan, this`threads
      ensures scan == Idle && threads.ready == old(threads.ready) && threads.exiting == old(threads.exiting)
      ensures forall pool ::
        var n := if pool in old(scan.pools) && HeapHolds(copies, pool) && old(threads.counts)[pool] < 2 then 1 else 0;
        threads.counts[pool] == old(threads.counts)[pool] + n && threads.waiting[pool] == old(threads.waiting)[pool] + n
    {
      var left := scan.pools;
      while left != {}
        invariant left <= old(scan.pools) && unchanged(this`scan)
        invariant threads.ready == old(threads.ready) && threads.exiting == old(threads.exiting)
        invariant forall pool ::
          var more := pool in old(scan.pools) - left && WantsDispatcher(copies, old(threads.counts), pool);
          && threads.counts[pool] == old(threads.counts)[pool] + (if more then 1 else 0)
          && threads.waiting[pool] == old(threads.waiting)[pool] + if more then 1 else 0
        decreases left
      {
        var pool :| pool in left;
        var top := HighestInHeap(pool);
        if top.Some? && threads.counts[pool] < 2 {
          threads := threads.(waiting := threads.waiting + multiset{pool}, counts := threads.counts + multiset{pool});
        }
        left := left - {pool};
      }
      scan := Idle;
      forall pool ensures WantsDispatcher(copies, old(threads.counts), pool) <==>
        HeapHolds(copies, pool) && old(threads.counts)[pool] < 2
      {
        WantsExactly(copies, old(threads.counts), pool);
      }
      hide WantsDispatcher, HeapHolds;
    }

    /** The entry a pop of this pool's heap would return. */
    method HighestInHeap(pool: string) returns (top: Option<Entry>)
      ensures top.None? ==> forall e :: !InHeapOf(copies, e, pool)
      ensures top.Some? ==> InHeapOf(copies, top.value, pool)
      ensures top.Some? ==> forall e | InHeapOf(copies, e, pool) ::
        Urgency(copies[e].task) <= Urgency(copies[top.value].task)
    {
      top := None;
      var left := copies.Keys;
      while left != {}
        invariant left <= copies.Keys
        invariant top.None? ==> forall e | InHeapOf(copies, e, pool) :: e in left
        invariant top.Some? ==> InHeapOf(copies, top.value, pool)
        invariant top.Some? ==> forall e | InHeapOf(copies, e, pool) && e !in left ::
          Urgency(copies[e].task) <= Urgency(copies[top.value].task)
        decreases left
      {
        var e :| e in left;
        if copies[e].phase == InHeap && PoolOf(copies[e].task) == pool {
          if top.None? || Urgency(copies[top.value].task) < Urgency(copies[e].task) {
            top := Some(e);
          }
        }
        left := left - {e};
      }
    }

    // ---- The dispatcher loop ----

    /** With a permit in hand: pop the most urgent task of the pool, or give up. */
    method PopOrExit(pool: string) returns (e: Option<Entry>)
      requires Valid() && pool in threads.ready
      modifies this`copies, this`threads
      ensures var step := if e.Some? then Pop(pool, e.value) else PopEmpty(pool);
        DispatchEnabled(old(View()), step) && View() == NextDispatch(old(View()), step)
    {
      e := HighestInHeap(pool);
      if e.Some? {
        copies := copies[e.value := copies[e.value].(phase := Popped)];
        threads := threads.(ready := threads.ready - multiset{pool});
      } else {
        threads := threads.(ready := threads.ready - multiset{pool}, exiting := threads.exiting + multiset{pool});
      }
    }

    /** One turn of the loop: pop, ask the rate limiter if the task names a group and a
        limit, and start the task or put it off. */
    method DispatchNext(pool: string, limiter: RateLimiter, now: Time) returns (e: Option<Entry>, spawned: bool)
      requires Valid() && pool in threads.ready
      modifies this`copies, this`queued, this`executing, this`threads, log, limiter
      ensures e.None? ==> DispatchEnabled(old(View()), PopEmpty(pool)) && !spawned
      ensures e.None? ==> View() == NextDispatch(old(View()), PopEmpty(pool))
      ensures e.None? ==> limiter.stored == old(limiter.stored)
      ensures e.Some? ==> DispatchEnabled(old(View()), Pop(pool, e.value))
      ensures e.Some? ==>
        // A refusal is saved, a task let through is not.
        var task, passed := old(copies)[e.value].task, log.View() == old(log.View());
        Limited(task, old(limiter.stored), limiter.stored, passed) && spawned == (passed && task.id !in old(executing))
      ensures e.Some? ==>
        var s, t := NextDispatch(old(View()), Pop(pool, e.value)), old(copies)[e.value].task;
        var limits := old(limiter.Limits());
        && limiter.Limits() == LimitsNext(limits, t, now)
        && View() == if Passes(limits, t, now) then NextDispatch(NextDispatch(s, Clear(e.value)), Begin(e.value))
                     else PutOff(s, e.value, now)
    {
      e := PopOrExit(pool);
      spawned := false;
      if e.Some? {
        var task := copies[e.value].task;
        var allow := true;
        if task.rateLimitGroup.Some? && task.maxPerMinute.Some? {
          allow := limiter.CheckAndIncrement(task.rateLimitGroup.value, task.maxPerMinute.value, now);
        }
        assert allow == Passes(old(limiter.Limits()), task, now);
        LimitedExact(task, old(limiter.stored), limiter.stored, now);
        hide Check, Limited, LimitsNext, Passes, Saved;
        if allow {
          spawned := StartExecution(e.value);
        } else {
          Defer(e.value, now);
        }
      }
    }

    /** The rate limiter refused: save the task for a minute later and let it be queued
        again. */
    method Defer(e: Entry, now: Time)
      requires Valid() && DispatchEnabled(View(), Deny(e))
      modifies this`copies, this`queued, this`threads, log
      ensures View() == PutOff(old(View()), e, now)
    {
      hide Saved;
      var task := copies[e].task;
      log.SaveTask(Deferral(task, now));
      queued := queued - {task.id};
      copies := copies - {e};
      threads := threads.(waiting := threads.waiting + multiset{PoolOf(task)});
    }

    /** The rate limiter passed the task: move it from queued to executing, unless its id
        is executing already. Returns whether an execution was spawned. */
    method StartExecution(e: Entry) returns (spawned: bool)
      requires Valid() && In(View(), e, Popped)
      modifies this`copies, this`queued, this`executing, this`threads
      ensures View() == NextDispatch(NextDispatch(old(View()), Clear(e)), Begin(e))
      ensures spawned == old(copies[e].task.id !in executing)
    {
      var task := copies[e].task;
      threads := threads.(waiting := threads.waiting + multiset{PoolOf(task)});
      queued := queued - {task.id};
      spawned := task.id !in executing;
      if !spawned {
        copies := copies - {e};
        assert copies == old(copies)[e := Copy(task, Cleared)] - {e};
        return;
      }
      executing := executing + {task.id};
      copies := copies[e := Copy(task, Spawned)];
      assert copies == old(copies)[e := Copy(task, Cleared)][e := Copy(task, Spawned)];
    }

    // ---- execute_task ----

    /** The whole of one execution: what the handler answered decides what is saved, what is
        erased, and whether the id leaves `executing`. */
    method ExecuteTask(e: Entry, outcome: Outcome, tick: Option<Time>, now: Time)
      requires Valid() && In(View(), e, Spawned)
      modifies this`copies, this`executing, this`completed, this`active, this`stuck, this`hist, log
      ensures View() == Executed(old(View()), e, outcome, tick, now)
      ensures var id := old(copies)[e].task.id;
        && copies == old(copies) - {e}
        && executing == (if id in old(completed) then old(executing) else old(executing) - {id})
    {
      var task := copies[e].task;
      if task.id in completed {
        copies := copies - {e};
        stuck := stuck + {task.id};
      } else {
        copies := copies[e := Copy(task, Handling)];
        assert View() == NextRun(old(View()), CheckCompleted(e));
        TakeAnswer(e, outcome, tick, now);
      }
    }

    method TakeAnswer(e: Entry, outcome: Outcome, tick: Option<Time>, now: Time)
      requires Valid() && In(View(), e, Handling)
      modifies this`copies, this`executing, this`completed, this`active, this`hist, log
      ensures View() == Answered(old(View()), e, outcome, tick, now)
      ensures copies == old(copies) - {e} && executing == old(executing) - {old(copies)[e].task.id}
    {
      hide Saved, Deleted;
      match outcome {
        case Unhandled =>
          copies := copies[e := Copy(copies[e].task, Leaving)];
          DropGuard(e);
        case Ok =>
          TakeSuccess(e, tick, now);
        case Err(error) =>
          TakeFailure(e, error, tick, now);
      }
    }

    method TakeSuccess(e: Entry, tick: Option<Time>, now: Time)
      requires Valid() && In(View(), e, Handling)
      modifies this`copies, this`executing, this`completed, this`active, this`hist, log
      ensures View() == Answered(old(View()), e, Ok, tick, now)
      ensures copies == old(copies) - {e} && executing == old(executing) - {old(copies)[e].task.id}
    {
      hide Saved, Deleted, Concluded;
      var task := copies[e].task;
      if task.cron.Some? && tick.Some? {
        SaveAndLeave(e, Rescheduled(task, tick.value), 0);
      } else {
        MarkFinal(e, true);
        Conclude(e, now);
      }
    }

    method TakeFailure(e: Entry, error: string, ghost tick: Option<Time>, now: Time)
      requires Valid() && In(View(), e, Handling)
      modifies this`copies, this`executing, this`completed, this`active, this`hist, log
      ensures View() == Answered(old(View()), e, Err(error), tick, now)
      ensures copies == old(copies) - {e} && executing == old(executing) - {old(copies)[e].task.id}
    {
      hide Saved, Deleted, Concluded;
      var task := copies[e].task;
      if task.retryCount < Wrap32(task.maxRetries - 1) {
        var failed := UpdateRetryConfig(task, Some(error), now);
        SaveAndLeave(e, failed, Failures(hist, task.id) + 1);
      } else {
        MarkFinal(e, false);
        Conclude(e, now);
      }
    }

    method MarkFinal(e: Entry, won: bool)
      requires In(View(), e, Handling) && (!won ==> !RetryAllowed(copies[e].task))
      modifies this`copies, this`hist
      ensures View() == NextRun(old(View()), if won then Succeed(e) else Exhaust(e))
      ensures copies == old(copies)[e := Copy(old(copies)[e].task, Ending(won))]
    {
      var task := copies[e].task;
      copies := copies[e := Copy(task, Ending(won))];
      if won {
        hist := hist.(won := hist.won + {task.id});
      } else {
        hist := hist.(lost := hist.lost + {task.id},
                      deaths := hist.deaths + {Death(task.id, Failures(hist, task.id) + 1, task.maxRetries)});
      }
    }

    /** Saves the task in its new form and drops the guard. */
    method SaveAndLeave(e: Entry, task: Task, ghost failures: nat)
      requires Valid() && In(View(), e, Handling) && task.id == copies[e].task.id
      modifies this`copies, this`executing, this`hist, log
      ensures View() == NextFinish(SavedAgain(old(View()), e, task, failures), Leave(e))
      ensures copies == old(copies) - {e} && executing == old(executing) - {task.id}
    {
      hide Saved;
      log.SaveTask(task);
      copies := copies[e := Copy(task, Leaving)];
      hist := hist.(failures := hist.failures[task.id := failures]);
      assert View() == SavedAgain(old(View()), e, task, failures);
      DropGuard(e);
    }

    method DropGuard(e: Entry)
      requires In(View(), e, Leaving) || In(View(), e, Gone)
      modifies this`copies, this`executing
      ensures View() == NextFinish(old(View()), Leave(e))
      ensures copies == old(copies) - {e} && executing == old(executing) - {old(copies)[e].task.id}
    {
      executing := executing - {copies[e].task.id};
      copies := copies - {e};
    }

    /** Completed set, tombstone, payload hash, guard, in that order. */
    method Conclude(e: Entry, now: Time)
      requires Valid() && e in copies && copies[e].phase.Ending?
      modifies this`copies, this`executing, this`completed, this`active, this`hist, log
      ensures View() == Concluded(old(View()), e, now)
      ensures copies == old(copies) - {e} && executing == old(executing) - {old(copies)[e].task.id}
    {
      hide NextFinish, FinishEnabled;
      NoteCompleted(e, now);
      WriteTombstone(e, now);
      ForgetHash(e);
      DropGuard(e);
    }

    method NoteCompleted(e: Entry, now: Time)
      requires e in copies && copies[e].phase.Ending?
      modifies this`copies, this`completed
      ensures View() == NextFinish(old(View()), RecordCompleted(e, now))
      ensures copies == old(copies)[e := Copy(old(copies)[e].task, Recorded(old(copies)[e].phase.won))]
      ensures completed == old(completed)[old(copies)[e].task.id := now]
    {
      var task := copies[e].task;
      completed := completed[task.id := now];
      copies := copies[e := Copy(task, Recorded(copies[e].phase.won))];
    }

    method WriteTombstone(e: Entry, now: Time)
      requires Valid() && e in copies && copies[e].phase.Recorded?
      modifies this`copies, this`hist, log
      ensures View() == NextFinish(old(View()), Erase(e, now))
      ensures copies == old(copies)[e := Copy(old(copies)[e].task, Erased)]
    {
      var task, won := copies[e].task, copies[e].phase.won;
      log.DeleteTask(task.id, now);
      copies := copies[e := Copy(task, Erased)];
      hist := if won then hist.(finished := hist.finished + {task.id}) else hist.(dead := hist.dead + {task.id});
    }

    method ForgetHash(e: Entry)
      requires In(View(), e, Erased)
      modifies this`copies, this`active
      ensures View() == NextFinish(old(View()), ReleaseHash(e))
      ensures copies == old(copies)[e := Copy(old(copies)[e].task, Gone)]
    {
      var task := copies[e].task;
      if task.payloadHash.Some? {
        active := active - {task.payloadHash.value};
      }
      copies := copies[e := Copy(task, Gone)];
    }

    /** The sweeper: drops completed entries a minute old or older. */
    method EvictExpiredCompleted(now: Time)
      modifies this`completed
      ensures View() == NextOutside(old(View()), Evict(now))
      ensures completed ==
        map id | id in old(completed) && now - old(completed)[id] < 60 * SECOND :: old(completed)[id]
    {
      var kept := completed;
      var left := completed.Keys;
      while left != {}
        invariant left <= completed.Keys
        invariant kept ==
          map id | id in completed && (id in left || now - completed[id] < COMPLETED_TTL) :: completed[id]
        decreases left
      {
        var id :| id in left;
        if now - completed[id] >= COMPLETED_TTL {
          kept := kept - {id};
        }
        left := left - {id};
      }
      completed := kept;
    }
  }

  /** How state s' may differ from s, for task t, once its handler has answered. */
  ghost predicate Settled(s: State, s': State, t: Task, outcome: Outcome, tick: Option<Time>, now: Time) {
    match outcome
    case Unhandled => s'.store == s.store
    case Ok =>
      if t.cron.Some? && tick.Some? then
        // A cron task stays live, due at the next tick with a clean count.
        OnlySaved(s, s', t.id) && IsRescheduled(t, s'.store.cache[t.id], tick.value)
      else
        Closed(s, s', t, now) && t.id in s'.hist.finished
    case Err(error) =>
      if Failures(s.hist, t.id) + 1 < DeadLetterNumber(t.maxRetries) then
        // A retry: one failure more on record.
        OnlySaved(s, s', t.id) && IsRetry(t, s'.store.cache[t.id], error, now)
      else
        Closed(s, s', t, now) && t.id in s'.hist.dead
  }

  /** One record is saved; the others stay. */
  ghost predicate OnlySaved(s: State, s': State, id: TaskId) {
    id in s'.store.cache && s'.store.cache == s.store.cache[id := s'.store.cache[id]]
  }

  /** The record is gone, the id is in the completed set from now on and the payload hash is
      free. */
  ghost predicate Closed(s: State, s': State, t: Task, now: Time) {
    && s'.store.cache == s.store.cache - {t.id} && s'.completed == s.completed[t.id := now]
    && (t.payloadHash.Some? ==> t.payloadHash.value !in s'.dedupe.active)
  }

  /** What one whole execution leaves behind, from any accounted state: its copy gone, the
      id out of `executing`, and the rest settled by the handler's answer. */
  lemma ExecutionOutcome(s: State, e: Entry, outcome: Outcome, tick: Option<Time>, now: Time)
    requires Accounted(s) && In(s, e, Spawned)
    ensures var t, s' := TaskOf(s, e), Executed(s, e, outcome, tick, now);
      e !in s'.places.copies && t.id !in s'.places.executing && Settled(s, s', t, outcome, tick, now)
  {
    var t := TaskOf(s, e);
    EarlyReturnUnreachable(s, e);
    var s1 := NextRun(s, CheckCompleted(e));
    RunBooks(s, CheckCompleted(e));
    RunStepSafe(s, CheckCompleted(e));
    AnswerOutcome(s1, e, outcome, tick, now);
  }

  lemma AnswerOutcome(s: State, e: Entry, outcome: Outcome, tick: Option<Time>, now: Time)
    requires Accounted(s) && In(s, e, Handling)
    ensures var t, s' := TaskOf(s, e), Answered(s, e, outcome, tick, now);
      e !in s'.places.copies && t.id !in s'.places.executing && Settled(s, s', t, outcome, tick, now)
  {
    CopyFits(s, e);
    assert StoreSound(s);
    hide Accounted, StoreSound, Exclusive;
    match outcome
    case Unhandled =>
    case Ok => SuccessOutcome(s, e, tick, now);
    case Err(error) => FailureOutcome(s, e, error, now);
  }

  lemma SuccessOutcome(s: State, e: Entry, tick: Option<Time>, now: Time)
    requires StoreSound(s) && In(s, e, Handling) && TaskOf(s, e).deletedAt.None?
    ensures var t, s' := TaskOf(s, e), Answered(s, e, Ok, tick, now);
      e !in s'.places.copies && t.id !in s'.places.executing && Settled(s, s', t, Ok, tick, now)
  {
    if !(TaskOf(s, e).cron.Some? && tick.Some?) {
      ConcludedOutcome(NextRun(s, Succeed(e)), e, now);
      hide Concluded;
    }
    hide StoreSound;
  }

  lemma FailureOutcome(s: State, e: Entry, error: string, now: Time)
    requires StoreSound(s) && In(s, e, Handling) && TaskOf(s, e).deletedAt.None?
    requires RetryFits(TaskOf(s, e), Failures(s.hist, TaskOf(s, e).id))
    ensures var t, s' := TaskOf(s, e), Answered(s, e, Err(error), None, now);
      e !in s'.places.copies && t.id !in s'.places.executing && Settled(s, s', t, Err(error), None, now)
  {
    RetryBoundary(TaskOf(s, e), Failures(s.hist, TaskOf(s, e).id));
    if RetryAllowed(TaskOf(s, e)) {
      UpdateIsRetry(TaskOf(s, e), error, now);
    } else {
      ConcludedOutcome(NextRun(s, Exhaust(e)), e, now);
      hide Concluded;
    }
    hide StoreSound, IsRetry;
  }

  lemma ConcludedOutcome(s: State, e: Entry, now: Time)
    requires StoreSound(s) && e in s.places.copies && s.places.copies[e].phase.Ending?
    ensures var t, s' := TaskOf(s, e), Concluded(s, e, now);
      && e !in s'.places.copies && t.id !in s'.places.executing
      && Closed(s, s', t, now)
      && t.id in if s.places.copies[e].phase.won then s'.hist.finished else s'.hist.dead
  {
    DeletedSound(s.store, TaskOf(s, e).id, now);
  }

  lemma FailureAccounted(s: State, e: Entry, error: string, now: Time)
    requires Accounted(s) && In(s, e, Handling) && RetryAllowed(TaskOf(s, e))
    ensures Accounted(Answered(s, e, Err(error), None, now))
  {
    hide Accounted, Saved;
    var s1 := NextRun(s, Fail(e, error, now));
    StepAccounted(s, Execute(Fail(e, error, now)));
    StepAccounted(s1, Finish(Leave(e)));
  }

  lemma FailedTaskSaved(s: State, e: Entry, error: string, now: Time)
    requires Accounted(s) && In(s, e, Handling) && RetryAllowed(TaskOf(s, e))
    ensures var s' := Answered(s, e, Err(error), None, now);
      Accounted(s') && Waits(s', UpdateRetryConfig(TaskOf(s, e), Some(error), now))
  {
    FailureAccounted(s, e, error, now);
    assert TaskOf(s, e).deletedAt.None?;
    OnlyCopy(s.places, e);
    hide Accounted, NextRun;
    FailureWaits(s, e, error, now);
  }

  lemma FailureWaits(s: State, e: Entry, error: string, now: Time)
    requires In(s, e, Handling) && RetryAllowed(TaskOf(s, e)) && TaskOf(s, e).deletedAt.None?
    requires forall f | f in s.places.copies && f != e :: TaskOf(s, f).id != TaskOf(s, e).id
    ensures Waits(Answered(s, e, Err(error), None, now), UpdateRetryConfig(TaskOf(s, e), Some(error), now))
  {}

  lemma OnlyCopy(pl: Places, e: Entry)
    requires Exclusive(pl) && e in pl.copies
    ensures forall f | f in pl.copies && f != e :: pl.copies[f].task.id != pl.copies[e].task.id
  {}

  /** No scan of the run admits anything at or after `until`. */
  ghost predicate ScansBefore(steps: seq<Step>, until: Time) {
    forall i | 0 <= i < |steps| && steps[i].Process? && steps[i].scan.ScanAdmit? :: steps[i].scan.now < until
  }

  /** A failed task that may be retried stays in the log as saved and out of memory, along
      every orderly run, restarts included, until a scan after its backoff. */
  lemma FailedTaskWaits(s: State, e: Entry, error: string, now: Time, steps: seq<Step>)
    requires Accounted(s) && In(s, e, Handling) && RetryAllowed(TaskOf(s, e))
    requires OrderlyRun(Answered(s, e, Err(error), None, now), steps)
    requires ScansBefore(steps, now + BackoffSeconds(TaskOf(s, e).retryAfterHours) * SECOND)
    ensures var s', t := Answered(s, e, Err(error), None, now), UpdateRetryConfig(TaskOf(s, e), Some(error), now);
      PossibleRun(s', steps) && Waits(Run(s', steps), t)
  {
    FailedTaskSaved(s, e, error, now);
    hide Answered, Accounted, Waits;
    WaitsItsTime(Answered(s, e, Err(error), None, now), steps, UpdateRetryConfig(TaskOf(s, e), Some(error), now));
  }

  lemma DispatchAccounted(s: State, step: DispatchStep)
    requires Accounted(s) && DispatchEnabled(s, step)
    ensures Accounted(NextDispatch(s, step))
  {
    hide Books, Safe;
    StepAccounted(s, Dispatch(step));
  }

  lemma RefusalEnabled(s: State, e: Entry, now: Time)
    requires DispatchEnabled(s, Deny(e))
    ensures DispatchEnabled(NextDispatch(s, Deny(e)), DeferSave(e, now))
    ensures DispatchEnabled(NextDispatch(NextDispatch(s, Deny(e)), DeferSave(e, now)), DeferRemove(e))
  {}

  lemma RefusalAccounted(s: State, e: Entry, now: Time)
    requires Accounted(s) && DispatchEnabled(s, Deny(e))
    ensures Accounted(PutOff(s, e, now))
  {
    hide Accounted, PutOff, NextDispatch, DispatchEnabled;
    PutOffIsThreeSteps(s, e, now);
    RefusalEnabled(s, e, now);
    var s1 := NextDispatch(s, Deny(e));
    var s2 := NextDispatch(s1, DeferSave(e, now));
    DispatchAccounted(s, Deny(e));
    DispatchAccounted(s1, DeferSave(e, now));
    DispatchAccounted(s2, DeferRemove(e));
  }

  lemma RefusedTaskSaved(s: State, e: Entry, now: Time)
    requires Accounted(s) && DispatchEnabled(s, Deny(e))
    ensures Accounted(PutOff(s, e, now)) && Waits(PutOff(s, e, now), Deferral(TaskOf(s, e), now))
  {
    RefusalAccounted(s, e, now);
    hide Books, StoreSound, NothingVanishes;
    OnlyCopy(s.places, e);
  }

  /** So does a task the rate limiter refused, for a minute. */
  lemma RefusedTaskWaits(s: State, e: Entry, now: Time, steps: seq<Step>)
    requires Accounted(s) && DispatchEnabled(s, Deny(e))
    requires OrderlyRun(PutOff(s, e, now), steps) && ScansBefore(steps, now + MINUTE)
    ensures PossibleRun(PutOff(s, e, now), steps) && Waits(Run(PutOff(s, e, now), steps), Deferral(TaskOf(s, e), now))
  {
    RefusedTaskSaved(s, e, now);
    hide PutOff, Accounted, Waits;
    WaitsItsTime(PutOff(s, e, now), steps, Deferral(TaskOf(s, e), now));
  }

  // ---- And is admitted again exactly when its time has come ----

  ghost predicate IdPushed(pl: Places, id: TaskId) {
    exists e :: e in pl.copies && pl.copies[e].task.id == id
  }

  ghost predicate SnapshotOf(s: State, tasks: seq<Task>) {
    forall t :: t in tasks <==> t.id in s.store.cache && s.store.cache[t.id] == t
  }

  /** A live task without a copy is pushed by a scan of the present cache exactly when its
      execute and retry times have come. */
  lemma PushedExactly(s: State, t: Task, tasks: seq<Task>, now: Time)
    requires Accounted(s) && Waits(s, t) && SnapshotOf(s, tasks)
    ensures IdPushed(AdmitAll(s.places, tasks, now), t.id) <==> t.executeAt <= now && t.retryAfterTime <= now
  {
    InNeitherSet(s, t);
    var pl := AdmitAll(s.places, tasks, now);
    if t.executeAt <= now && t.retryAfterTime <= now {
      DueTaskPushed(s.places, tasks, now, t);
      var e :| e in pl.copies && pl.copies[e] == Copy(t, InHeap);
    } else {
      NotAdmittedEarly(s, tasks, t, now);
    }
  }

  lemma InNeitherSet(s: State, t: Task)
    requires Accounted(s) && Waits(s, t)
    ensures t.deletedAt.None? && t.id !in s.places.queued && t.id !in s.places.executing
  {
    hide HashesHeld, CompletedLeaving, RetriesCounted, NothingVanishes, CopiesAgree;
    LiveUndeleted(s, t.id);
  }

  lemma LiveUndeleted(s: State, id: TaskId)
    requires StoreSound(s) && id in s.store.cache
    ensures s.store.cache[id].deletedAt.None?
  {}

  /** After a failure with retries left, and after any orderly run of scans before its
      backoff, a scan at time `at` pushes the task if and only if its execute time has come
      and n seconds have passed since the failure, n being the whole seconds of the asked
      backoff, cut toward zero. */
  lemma RetryPushedExactly(s: State, e: Entry, error: string, now: Time, n: int, steps: seq<Step>,
                           tasks: seq<Task>, at: Time)
    requires Accounted(s) && In(s, e, Handling) && RetryAllowed(TaskOf(s, e))
    requires NearestZero(n, TaskOf(s, e).retryAfterHours * 3600.0)
    requires OrderlyRun(Answered(s, e, Err(error), None, now), steps) && ScansBefore(steps, now + n * SECOND)
    requires var s' := Answered(s, e, Err(error), None, now);
      PossibleRun(s', steps) && SnapshotOf(Run(s', steps), tasks)
    ensures var s' := Run(Answered(s, e, Err(error), None, now), steps);
      IdPushed(AdmitAll(s'.places, tasks, at), TaskOf(s, e).id) <==>
        TaskOf(s, e).executeAt <= at && now + n * SECOND <= at
  {
    var s0, t := Answered(s, e, Err(error), None, now), UpdateRetryConfig(TaskOf(s, e), Some(error), now);
    BackoffTruncates(TaskOf(s, e).retryAfterHours, n);
    assert t.id == TaskOf(s, e).id && t.executeAt == TaskOf(s, e).executeAt && t.retryAfterTime == now + n * SECOND;
    FailedTaskWaits(s, e, error, now, steps);
    FailedTaskSaved(s, e, error, now);
    hide Answered, Accounted, Waits, UpdateRetryConfig, SnapshotOf, IdPushed, AdmitAll;
    RunAccounted(s0, steps);
    PushedExactly(Run(s0, steps), t, tasks, at);
  }

  /** A task the rate limiter refused is pushed again if and only if its execute time has
      come and sixty seconds have passed. */
  lemma RefusedPushedExactly(s: State, e: Entry, now: Time, steps: seq<Step>, tasks: seq<Task>, at: Time)
    requires Accounted(s) && DispatchEnabled(s, Deny(e))
    requires OrderlyRun(PutOff(s, e, now), steps) && ScansBefore(steps, now + 60 * SECOND)
    requires PossibleRun(PutOff(s, e, now), steps) && SnapshotOf(Run(PutOff(s, e, now), steps), tasks)
    ensures var s' := Run(PutOff(s, e, now), steps);
      IdPushed(AdmitAll(s'.places, tasks, at), TaskOf(s, e).id) <==>
        TaskOf(s, e).executeAt <= at && now + 60 * SECOND <= at
  {
    var s0, t := PutOff(s, e, now), Deferral(TaskOf(s, e), now);
    RefusedTaskWaits(s, e, now, steps);
    RefusedTaskSaved(s, e, now);
    hide PutOff, Accounted, Waits, SnapshotOf, IdPushed, AdmitAll;
    RunAccounted(s0, steps);
    PushedExactly(Run(s0, steps), t, tasks, at);
  }

  lemma RescheduledSaved(s: State, e: Entry, next: Time, now: Time)
    requires Accounted(s) && In(s, e, Handling) && TaskOf(s, e).cron.Some?
    ensures var s' := Answered(s, e, Ok, Some(next), now);
      Accounted(s') && Waits(s', Rescheduled(TaskOf(s, e), next))
  {
    RescheduleAccounted(s, e, next, now);
    assert TaskOf(s, e).deletedAt.None?;
    OnlyCopy(s.places, e);
    hide Accounted, NextRun;
    RescheduleWaits(s, e, next, now);
  }

  lemma RescheduleWaits(s: State, e: Entry, next: Time, now: Time)
    requires In(s, e, Handling) && TaskOf(s, e).cron.Some? && TaskOf(s, e).deletedAt.None?
    requires forall f | f in s.places.copies && f != e :: TaskOf(s, f).id != TaskOf(s, e).id
    ensures Waits(Answered(s, e, Ok, Some(next), now), Rescheduled(TaskOf(s, e), next))
  {}

  lemma RescheduleAccounted(s: State, e: Entry, next: Time, now: Time)
    requires Accounted(s) && In(s, e, Handling) && TaskOf(s, e).cron.Some?
    ensures Accounted(Answered(s, e, Ok, Some(next), now))
  {
    hide Accounted, Saved;
    var s1 := NextRun(s, Reschedule(e, next));
    StepAccounted(s, Execute(Reschedule(e, next)));
    StepAccounted(s1, Finish(Leave(e)));
  }

  /** A cron task that succeeded is pushed again if and only if its next tick has come, and
      so has the retry time it was saved with before. */
  lemma CronPushedExactly(s: State, e: Entry, next: Time, now: Time, tasks: seq<Task>, at: Time)
    requires Accounted(s) && In(s, e, Handling) && TaskOf(s, e).cron.Some?
    requires SnapshotOf(Answered(s, e, Ok, Some(next), now), tasks)
    ensures var s' := Answered(s, e, Ok, Some(next), now);
      IdPushed(AdmitAll(s'.places, tasks, at), TaskOf(s, e).id) <==> next <= at && TaskOf(s, e).retryAfterTime <= at
  {
    RescheduledSaved(s, e, next, now);
    hide Answered, Accounted, Waits, SnapshotOf, IdPushed, AdmitAll;
    PushedExactly(Answered(s, e, Ok, Some(next), now), Rescheduled(TaskOf(s, e), next), tasks, at);
  }
}
