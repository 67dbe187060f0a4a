/** How often a task is reported done (src/queue.rs): once, unless the process dies between
    the outcome and the tombstone. */
module SchedulerOutcomes {
  import opened Tasks
  import opened Log
  import opened FileStore
  import opened Placement
  import opened Scheduler
  import opened SchedulerSafety
  import opened SchedulerAccounts
  import opened SchedulerWitness

  /** The outcome is out, the tombstone is not yet written. */
  predicate Unerased(p: Phase) {
    p.Ending? || p.Recorded?
  }

  function UnerasedIds(pl: Places): set<TaskId> {
    set e | e in pl.copies && Unerased(pl.copies[e].phase) :: pl.copies[e].task.id
  }

  /** The ids a crash has ever caught between outcome and tombstone, one step on. */
  ghost function CaughtNext(s: State, caught: set<TaskId>, step: Step): set<TaskId>
    requires Enabled(s, step)
  {
    if step.Outside? && (step.outside.Crash? || step.outside.CrashAndReplay?) then caught + UnerasedIds(s.places)
    else caught
  }

  ghost function Caught(s: State, caught: set<TaskId>, steps: seq<Step>): set<TaskId>
    requires PossibleRun(s, steps)
    decreases |steps|
  {
    if steps == [] then caught else Caught(Next(s, steps[0]), CaughtNext(s, caught, steps[0]), steps[1..])
  }

  /** Every id with an outcome is closed in the log, was caught by a crash, or is about to
      get its tombstone. */
  ghost predicate Traced(s: State, caught: set<TaskId>) {
    && caught <= s.hist.won + s.hist.lost
    && s.hist.won + s.hist.lost <= s.hist.finished + s.hist.dead + caught + UnerasedIds(s.places)
  }

  /** When one copy changes, the other copies' ids stay where they were. */
  lemma OthersUnerased(pl: Places, pl': Places, e: Entry, id: TaskId)
    requires id in UnerasedIds(pl) && e in pl.copies && (id != pl.copies[e].task.id || !Unerased(pl.copies[e].phase))
    requires pl'.copies - {e} == pl.copies - {e}
    ensures id in UnerasedIds(pl')
  {
    var f :| f in pl.copies && Unerased(pl.copies[f].phase) && pl.copies[f].task.id == id;
    assert f in pl.copies - {e};
    assert f in pl'.copies - {e};
  }

  /** A copy that is not between outcome and tombstone changes, and no outcome is reported. */
  lemma TracedFrame(s: State, s': State, e: Entry, caught: set<TaskId>)
    requires Traced(s, caught) && e in s.places.copies && !Unerased(s.places.copies[e].phase)
    requires s'.places.copies - {e} == s.places.copies - {e}
    requires s'.hist.won == s.hist.won && s'.hist.lost == s.hist.lost
    requires s'.hist.finished == s.hist.finished && s'.hist.dead == s.hist.dead
    ensures Traced(s', caught)
  {
    forall id | id in UnerasedIds(s.places) ensures id in UnerasedIds(s'.places) {
      OthersUnerased(s.places, s'.places, e, id);
    }
  }

  lemma DispatchTraced(s: State, step: DispatchStep, caught: set<TaskId>)
    requires Traced(s, caught) && DispatchEnabled(s, step)
    ensures Traced(NextDispatch(s, step), caught)
  {
    hide Traced, Saved, UnerasedIds;
    if step.Acquire? || step.PopEmpty? || step.ExitDispatcher? {
      SameTraced(s, NextDispatch(s, step), caught);
    } else {
      assert NextDispatch(s, step).places.copies - {step.e} == s.places.copies - {step.e};
      TracedFrame(s, NextDispatch(s, step), step.e, caught);
    }
  }

  lemma SameTraced(s: State, s': State, caught: set<TaskId>)
    requires Traced(s, caught) && UnerasedIds(s'.places) == UnerasedIds(s.places)
    requires s'.hist.won == s.hist.won && s'.hist.lost == s.hist.lost
    requires s'.hist.finished == s.hist.finished && s'.hist.dead == s.hist.dead
    ensures Traced(s', caught)
  {}

  lemma RunTraced(s: State, step: RunStep, caught: set<TaskId>)
    requires Traced(s, caught) && RunEnabled(s, step)
    ensures Traced(NextRun(s, step), caught)
  {
    hide Saved, UnerasedIds;
    var s', id := NextRun(s, step), TaskOf(s, step.e).id;
    assert s'.places.copies - {step.e} == s.places.copies - {step.e};
    if step.Succeed? || step.Exhaust? {
      forall other | other in UnerasedIds(s.places) ensures other in UnerasedIds(s'.places) {
        OthersUnerased(s.places, s'.places, step.e, other);
      }
      NowUnerased(s'.places, step.e);
    } else {
      TracedFrame(s, s', step.e, caught);
    }
  }

  lemma NowUnerased(pl: Places, e: Entry)
    requires e in pl.copies && Unerased(pl.copies[e].phase)
    ensures pl.copies[e].task.id in UnerasedIds(pl)
  {}

  lemma FinishTraced(s: State, step: FinishStep, caught: set<TaskId>)
    requires Traced(s, caught) && FinishEnabled(s, step)
    ensures Traced(NextFinish(s, step), caught)
  {
    hide Deleted, UnerasedIds;
    var s', id := NextFinish(s, step), TaskOf(s, step.e).id;
    assert s'.places.copies - {step.e} == s.places.copies - {step.e};
    if step.RecordCompleted? || step.Erase? {
      if step.RecordCompleted? { NowUnerased(s'.places, step.e); }
      forall other | other in UnerasedIds(s.places) && other != id ensures other in UnerasedIds(s'.places) {
        OthersUnerased(s.places, s'.places, step.e, other);
      }
    } else {
      TracedFrame(s, s', step.e, caught);
    }
  }

  lemma ScanTraced(s: State, step: ScanStep, caught: set<TaskId>)
    requires Exclusive(s.places) && Traced(s, caught) && ScanEnabled(s, step)
    ensures Traced(NextScan(s, step), caught)
  {
    var s' := NextScan(s, step);
    if step.ScanAdmit? {
      AdmitAllAdds(s.places, s.scan.tasks, step.now);
      assert s'.places == AdmitAll(s.places, s.scan.tasks, step.now);
      assert UnerasedIds(s'.places) == UnerasedIds(s.places);
    } else {
      assert s'.places == s.places;
    }
    hide Traced, Exclusive;
    SameTraced(s, s', caught);
  }

  lemma OutsideTraced(s: State, step: OutsideStep, caught: set<TaskId>)
    requires Safe(s) && Traced(s, caught) && OutsideEnabled(s, step)
    ensures Traced(NextOutside(s, step), CaughtNext(s, caught, Outside(step)))
  {
    forall id | id in UnerasedIds(s.places) ensures id in s.hist.won + s.hist.lost {
      var e :| e in s.places.copies && Unerased(s.places.copies[e].phase) && s.places.copies[e].task.id == id;
      assert HasOutcome(s.places.copies[e].phase);
    }
    hide Safe, UnerasedIds;
  }

  lemma EnqueueTraced(s: State, step: EnqueueStep, caught: set<TaskId>)
    requires Traced(s, caught) && EnqueueEnabled(s, step)
    ensures Traced(NextEnqueue(s, step), caught)
  {
    hide Traced;
    SameTraced(s, NextEnqueue(s, step), caught);
  }

  lemma StepTraced(s: State, step: Step, caught: set<TaskId>)
    requires Safe(s) && Traced(s, caught) && Enabled(s, step)
    ensures Traced(Next(s, step), CaughtNext(s, caught, step))
  {
    assert Exclusive(s.places);
    hide Safe, Exclusive, Traced, UnerasedIds;
    match step
    case Dispatch(x) => DispatchTraced(s, x, caught);
    case Execute(x) => RunTraced(s, x, caught);
    case Finish(x) => FinishTraced(s, x, caught);
    case Process(x) => ScanTraced(s, x, caught);
    case Enqueue(x) => EnqueueTraced(s, x, caught);
    case Outside(x) => OutsideTraced(s, x, caught);
  }

  lemma {:induction false} RunIsTraced(s: State, steps: seq<Step>, caught: set<TaskId>)
    requires Safe(s) && Traced(s, caught) && PossibleRun(s, steps)
    ensures Safe(Run(s, steps)) && Traced(Run(s, steps), Caught(s, caught, steps))
    decreases |steps|
  {
    hide Safe, Traced;
    if steps != [] {
      StepSafe(s, steps[0]);
      StepTraced(s, steps[0], caught);
      RunIsTraced(Next(s, steps[0]), steps[1..], CaughtNext(s, caught, steps[0]));
    }
  }

  /** In every orderly run, when an execution is about to be reported a success or out of
      retries, its task has had an outcome before if and only if a crash has caught the task
      between an earlier outcome and its tombstone. */
  lemma RepeatsExactly(steps: seq<Step>, e: Entry)
    requires OrderlyRun(Initial, steps) && PossibleRun(Initial, steps) && In(Run(Initial, steps), e, Handling)
    ensures var s, id := Run(Initial, steps), TaskOf(Run(Initial, steps), e).id;
      id in s.hist.won + s.hist.lost <==> id in Caught(Initial, {}, steps)
  {
    var s, id := Run(Initial, steps), TaskOf(Run(Initial, steps), e).id;
    InitialAccounted();
    RunAccounted(Initial, steps);
    RunIsTraced(Initial, steps, {});
    NotBetween(s, e);
  }

  /** An execution whose handler runs is the only copy of a task that is still live. */
  lemma NotBetween(s: State, e: Entry)
    requires Accounted(s) && In(s, e, Handling)
    ensures var id := TaskOf(s, e).id; id !in UnerasedIds(s.places) && id !in s.hist.finished && id !in s.hist.dead
  {
    hide HashesHeld, CompletedLeaving, RetriesCounted, StoreSound, NothingVanishes;
  }

  /** It happens: a success, a crash before the tombstone, and the task runs again. */
  lemma SuccessRepeats() returns (s: State)
    ensures Reachable(s) && "a" in s.hist.won && In(s, 0, Handling) && TaskOf(s, 0).id == "a"
  {
    s := JustSucceeded();
    s := CrashedAfter(s);
    s := AdmittedFrom(s, A);
    s := Fetched(s, 0, A);
    s := Started(s, 0, A);
    hide Reachable;
    s := Reach(s, Execute(CheckCompleted(0)));
  }

  lemma CrashedAfter(s: State) returns (s': State)
    requires Reachable(s) && s.store.cache == map["a" := A]
    ensures Reachable(s') && s'.store.cache == map["a" := A] && s'.hist == s.hist
    ensures s'.places == Nowhere && s'.completed == map[] && !s'.paused && s'.scan == Idle
    ensures s'.threads == Initial.threads
  {
    CacheIsReplay(s);
    hide Reachable;
    s' := Reach(s, Outside(Crash));
  }

  lemma CacheIsReplay(s: State)
    requires Reachable(s)
    ensures s.store.cache == Replay(Lines(s.store))
  {
    var steps :| PossibleRun(Initial, steps) && Run(Initial, steps) == s;
    InitialSafe();
    RunSafe(Initial, steps);
  }
}
