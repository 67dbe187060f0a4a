/** What callers enqueue is what stays stored, queued, executed and brought back
    (src/queue.rs, src/file_store.rs, cmd_replay in src/main.rs). */
module SchedulerContent {
  import opened Tasks
  import opened Log
  import opened FileStore
  import opened Placement
  import opened Scheduler
  import opened SchedulerSafety
  import opened SchedulerAccounts
  import opened ReplayCommand

  /** An accepted enqueue stores the caller's task as it was given, undeleted, and no other
      record changes. */
  lemma AcceptedIsStored(s: State, req: nat, t: Task)
    requires StoreSound(s) && EnqueueEnabled(s, EnqueueCheck(req, t))
    requires t.payloadHash.Some? ==> t.payloadHash.value !in s.dedupe.active
    ensures var s1 := NextEnqueue(s, EnqueueCheck(req, t));
      && EnqueueEnabled(s1, EnqueueSave(req))
      && Lines(NextEnqueue(s1, EnqueueSave(req)).store) == Lines(s.store) + [Record(t.(deletedAt := None))]
      && Replay(Lines(NextEnqueue(s1, EnqueueSave(req)).store)) == Replay(Lines(s.store))[t.id := t.(deletedAt := None)]
  {
    ReplayAppend(Lines(s.store), Record(t.(deletedAt := None)));
  }

  // ---- What the callers asked for ----

  /** The tasks as their callers gave them: those between check and save, by request, and
      those saved, by id. */
  datatype Asked = Asked(waiting: map<nat, Task>, given: map<TaskId, Task>)

  function AskedNext(a: Asked, step: Step): Asked {
    match step
    case Enqueue(EnqueueCheck(req, task)) => a.(waiting := a.waiting[req := task])
    case Enqueue(EnqueueSave(req)) =>
      if req in a.waiting then a.(given := a.given[a.waiting[req].id := a.waiting[req]]) else a
    case _ => a
  }

  function AskedAfter(a: Asked, steps: seq<Step>): Asked
    decreases |steps|
  {
    if steps == [] then a else AskedAfter(AskedNext(a, steps[0]), steps[1..])
  }

  /** r is a record of the given task g: same content, and, unless cron moves it on, the same
      time to execute at. */
  predicate RecordOf(r: Task, g: Task) {
    SameContent(r, g) && (g.cron.None? ==> r.executeAt == g.executeAt)
  }

  ghost predicate RecordsKept(log: seq<Line>, given: map<TaskId, Task>) {
    forall id | id in Latest(log) :: id in given && RecordOf(Latest(log)[id], given[id])
  }

  ghost predicate CopiesKept(pl: Places, given: map<TaskId, Task>) {
    forall e | e in pl.copies ::
      pl.copies[e].task.id in given && RecordOf(pl.copies[e].task, given[pl.copies[e].task.id])
  }

  ghost predicate PendingKept(pending: map<nat, Task>, waiting: map<nat, Task>) {
    forall r | r in pending :: r in waiting && pending[r] == waiting[r].(deletedAt := None)
  }

  ghost predicate LettersKept(deaths: set<Death>, given: map<TaskId, Task>) {
    forall d | d in deaths :: d.id in given && d.maxRetries == given[d.id].maxRetries
  }

  ghost predicate Kept(s: State, a: Asked) {
    && RecordsKept(Lines(s.store), a.given) && CopiesKept(s.places, a.given)
    && PendingKept(s.dedupe.pending, a.waiting) && s.hist.accepted == a.given.Keys
    && LettersKept(s.hist.deaths, a.given)
  }

  // ---- Kept by every orderly step ----

  /** A record is saved that is still one of the given task. */
  lemma SavedKept(log: seq<Line>, given: map<TaskId, Task>, t: Task)
    requires RecordsKept(log, given) && t.id in given && RecordOf(t, given[t.id])
    ensures RecordsKept(log + [Record(t)], given)
  {
    LatestAppend(log, t);
  }

  /** One copy changes into another of the same given task, or goes. */
  lemma CopyKept(pl: Places, pl': Places, given: map<TaskId, Task>, e: Entry)
    requires CopiesKept(pl, given) && pl'.copies - {e} == pl.copies - {e}
    requires e in pl'.copies ==>
      pl'.copies[e].task.id in given && RecordOf(pl'.copies[e].task, given[pl'.copies[e].task.id])
    ensures CopiesKept(pl', given)
  {
    forall f | f in pl'.copies && f != e ensures pl'.copies[f].task.id in given
      && RecordOf(pl'.copies[f].task, given[pl'.copies[f].task.id])
    {
      assert f in pl'.copies - {e} && f in pl.copies - {e};
    }
  }

  lemma DispatchKept(s: State, step: DispatchStep, a: Asked)
    requires LiveCopies(s) && Kept(s, a) && DispatchEnabled(s, step)
    ensures Kept(NextDispatch(s, step), a)
  {
    hide RecordsKept, CopiesKept, PendingKept;
    var s' := NextDispatch(s, step);
    if !step.Acquire? && !step.PopEmpty? && !step.ExitDispatcher? {
      OneKept(s.places, a.given, step.e);
      assert s'.places.copies - {step.e} == s.places.copies - {step.e};
      CopyKept(s.places, s'.places, a.given, step.e);
      if step.DeferSave? {
        SavedKept(Lines(s.store), a.given, Deferral(TaskOf(s, step.e), step.now));
      }
    } else {
      assert s'.places == s.places;
    }
  }

  lemma OneKept(pl: Places, given: map<TaskId, Task>, e: Entry)
    requires CopiesKept(pl, given) && e in pl.copies
    ensures pl.copies[e].task.id in given && RecordOf(pl.copies[e].task, given[pl.copies[e].task.id])
  {}

  lemma RunKept(s: State, step: RunStep, a: Asked)
    requires Kept(s, a) && RunEnabled(s, step)
    ensures Kept(NextRun(s, step), a)
  {
    hide RecordsKept, CopiesKept, PendingKept;
    var s', t := NextRun(s, step), TaskOf(s, step.e);
    OneKept(s.places, a.given, step.e);
    assert s'.places.copies - {step.e} == s.places.copies - {step.e};
    CopyKept(s.places, s'.places, a.given, step.e);
    match step
    case Fail(_, error, now) => SavedKept(Lines(s.store), a.given, UpdateRetryConfig(t, Some(error), now));
    case Reschedule(_, next) => SavedKept(Lines(s.store), a.given, Rescheduled(t, next));
    case _ =>
  }

  lemma FinishKept(s: State, step: FinishStep, a: Asked)
    requires StoreSound(s) && Kept(s, a) && FinishEnabled(s, step)
    ensures Kept(NextFinish(s, step), a)
  {
    hide RecordsKept, CopiesKept, PendingKept;
    var s', t := NextFinish(s, step), TaskOf(s, step.e);
    OneKept(s.places, a.given, step.e);
    assert s'.places.copies - {step.e} == s.places.copies - {step.e};
    CopyKept(s.places, s'.places, a.given, step.e);
    if step.Erase? && t.id in s.store.cache {
      LiveRecordKept(s, a.given, t.id);
      SavedKept(Lines(s.store), a.given, MarkDeleted(s.store.cache[t.id], step.now));
    }
  }

  lemma LiveRecordKept(s: State, given: map<TaskId, Task>, id: TaskId)
    requires StoreSound(s) && RecordsKept(Lines(s.store), given) && id in s.store.cache
    ensures s.store.cache[id].id == id && id in given && RecordOf(s.store.cache[id], given[id])
  {
    LatestAgreesWithReplay(Lines(s.store));
  }

  lemma ScanKept(s: State, step: ScanStep, a: Asked)
    requires Safe(s) && Kept(s, a) && ScanEnabled(s, step) && Orderly(s, Process(step))
    ensures Kept(NextScan(s, step), a)
  {
    hide RecordsKept, PendingKept;
    var s' := NextScan(s, step);
    if step.ScanAdmit? {
      AdmitAllAdds(s.places, s.scan.tasks, step.now);
      assert s'.places == AdmitAll(s.places, s.scan.tasks, step.now);
      forall e | e in s'.places.copies
        ensures var t := TaskOf(s', e); t.id in a.given && RecordOf(t, a.given[t.id])
      {
        if e in s.places.copies { OneKept(s.places, a.given, e); }
        else { LiveRecordKept(s, a.given, TaskOf(s', e).id); }
      }
    } else {
      assert s'.places == s.places;
    }
  }

  lemma EnqueueKept(s: State, step: EnqueueStep, a: Asked)
    requires Accounted(s) && Kept(s, a) && EnqueueEnabled(s, step)
    ensures Kept(NextEnqueue(s, step), AskedNext(a, Enqueue(step)))
  {
    if step.EnqueueSave? {
      FreshPending(s, step.req);
      hide Accounted;
      SaveKept(s, step.req, a);
    } else {
      hide Accounted, RecordsKept, CopiesKept;
    }
  }

  lemma SaveKept(s: State, req: nat, a: Asked)
    requires Kept(s, a) && EnqueueEnabled(s, EnqueueSave(req)) && s.dedupe.pending[req].id !in s.hist.accepted
    ensures Kept(NextEnqueue(s, EnqueueSave(req)), AskedNext(a, Enqueue(EnqueueSave(req))))
  {
    var t, a' := s.dedupe.pending[req], AskedNext(a, Enqueue(EnqueueSave(req)));
    var s' := NextEnqueue(s, EnqueueSave(req));
    assert a'.given == a.given[t.id := a.waiting[req]] && a'.waiting == a.waiting;
    assert Lines(s'.store) == Lines(s.store) + [Record(t)] && s'.places == s.places;
    assert RecordOf(t, a'.given[t.id]);
    hide RecordsKept, CopiesKept, RecordOf, Saved, Lines;
    StillKept(Lines(s.store), s.places, a.given, a'.given);
    SavedKept(Lines(s.store), a'.given, t);
  }

  lemma FreshPending(s: State, req: nat)
    requires Accounted(s) && req in s.dedupe.pending
    ensures s.dedupe.pending[req].id !in s.hist.accepted
  {}

  /** A new id leaves what is kept for the others alone. */
  lemma StillKept(log: seq<Line>, pl: Places, given: map<TaskId, Task>, given': map<TaskId, Task>)
    requires RecordsKept(log, given) && CopiesKept(pl, given)
    requires forall id | id in given :: id in given' && given'[id] == given[id]
    ensures RecordsKept(log, given') && CopiesKept(pl, given')
  {}

  lemma CompactKept(s: State, stamps: seq<Time>, order: seq<TaskId>, a: Asked)
    requires Accounted(s) && Kept(s, a)
    requires OutsideEnabled(s, CompactLog(stamps, order)) && KeepsMeaning(Lines(s.store), stamps)
    ensures Kept(NextOutside(s, CompactLog(stamps, order)), a)
  {
    hide Accounted, CopiesKept, PendingKept, CompactedMap, Visits, KeepsMeaning, RecordOf;
    CompactedLatest(Lines(s.store), stamps, order);
  }

  lemma OutsideKept(s: State, step: OutsideStep, a: Asked)
    requires Accounted(s) && Kept(s, a) && OutsideEnabled(s, step) && Orderly(s, Outside(step))
    ensures Kept(NextOutside(s, step), a)
  {
    hide Accounted;
    match step
    case CompactLog(stamps, order) => CompactKept(s, stamps, order, a);
    case _ =>
  }

  lemma StepKept(s: State, step: Step, a: Asked)
    requires Accounted(s) && Kept(s, a) && Enabled(s, step) && Orderly(s, step)
    ensures Kept(Next(s, step), AskedNext(a, step))
  {
    assert Safe(s) && StoreSound(s) && LiveCopies(s);
    hide Accounted, Safe, StoreSound, LiveCopies, Kept;
    match step
    case Dispatch(x) => DispatchKept(s, x, a);
    case Execute(x) => RunKept(s, x, a);
    case Finish(x) => FinishKept(s, x, a);
    case Process(x) => ScanKept(s, x, a);
    case Enqueue(x) => EnqueueKept(s, x, a);
    case Outside(x) => OutsideKept(s, x, a);
  }

  lemma {:induction false} RunIsKept(s: State, steps: seq<Step>, a: Asked)
    requires Accounted(s) && Kept(s, a) && OrderlyRun(s, steps)
    ensures PossibleRun(s, steps) && Accounted(Run(s, steps)) && Kept(Run(s, steps), AskedAfter(a, steps))
    decreases |steps|
  {
    hide Accounted, Kept;
    if steps != [] {
      StepAccounted(s, steps[0]);
      StepKept(s, steps[0], a);
      RunIsKept(Next(s, steps[0]), steps[1..], AskedNext(a, steps[0]));
    }
  }

  /** In every orderly run, retries, deferrals, cron ticks, compactions and restarts
      included: the ids accepted are those given; every live record, every copy waiting or
      running, every tombstone and every record `replay` would bring back is of the task its
      caller gave - type, data, retry settings, rate limit, urgency, hash, pool and cron;
      what is not a cron task keeps the time it was to execute at; and a dead letter is sent
      by the retries its caller allowed. */
  lemma ContentKept(steps: seq<Step>)
    requires OrderlyRun(Initial, steps)
    ensures PossibleRun(Initial, steps)
    ensures var s, given := Run(Initial, steps), AskedAfter(Asked(map[], map[]), steps).given;
      && s.hist.accepted == given.Keys
      && (forall id | id in s.store.cache :: id in given && RecordOf(s.store.cache[id], given[id]))
      && (forall e | e in s.places.copies ::
            TaskOf(s, e).id in given && RecordOf(TaskOf(s, e), given[TaskOf(s, e).id]))
      && (forall id | id in Latest(Lines(s.store)) ::
            id in given && RecordOf(Latest(Lines(s.store))[id], given[id]))
      && (forall target, clock, id | id in Recovered(Lines(s.store), target, clock) ::
            id in given && SameContent(Recovered(Lines(s.store), target, clock)[id], given[id]))
      && (forall d | d in s.hist.deaths :: d.id in given && d.maxRetries == given[d.id].maxRetries)
  {
    InitialKept();
    hide Accounted, Kept, RecordOf, SameContent, Recovered, Latest, Run, AskedAfter, OrderlyRun, PossibleRun, TaskOf;
    RunIsKept(Initial, steps, Asked(map[], map[]));
    KeptMeans(Run(Initial, steps), AskedAfter(Asked(map[], map[]), steps));
  }

  lemma InitialKept()
    ensures Accounted(Initial) && Kept(Initial, Asked(map[], map[]))
  {
    InitialAccounted();
    hide Accounted;
  }

  lemma KeptMeans(s: State, a: Asked)
    requires Accounted(s) && Kept(s, a)
    ensures s.hist.accepted == a.given.Keys
    ensures forall id | id in s.store.cache :: id in a.given && RecordOf(s.store.cache[id], a.given[id])
    ensures forall e | e in s.places.copies ::
      TaskOf(s, e).id in a.given && RecordOf(TaskOf(s, e), a.given[TaskOf(s, e).id])
    ensures forall id | id in Latest(Lines(s.store)) ::
      id in a.given && RecordOf(Latest(Lines(s.store))[id], a.given[id])
    ensures forall target, clock, id | id in Recovered(Lines(s.store), target, clock) ::
      id in a.given && SameContent(Recovered(Lines(s.store), target, clock)[id], a.given[id])
    ensures forall d | d in s.hist.deaths :: d.id in a.given && d.maxRetries == a.given[d.id].maxRetries
  {
    LatestAgreesWithReplay(Lines(s.store));
    assert StoreSound(s);
    hide Accounted;
  }
}
