/** Pausing an engine: what a pause stops, what it does not, and that the rest runs dry
    (src/queue.rs, and the shutdown path of src/main.rs). */
module SchedulerDrain {
  import opened Tasks
  import opened FileStore
  import opened Placement
  import opened Scheduler
  import opened SchedulerSafety
  import opened SchedulerAccounts

  predicate Restarts(step: Step) {
    step.Outside? && (step.outside.Crash? || step.outside.CrashAndReplay?)
  }

  /** The steps of dispatchers and executions. */
  predicate Works(step: Step) {
    step.Dispatch? || step.Execute? || step.Finish?
  }

  /** Those, and the steps of the processor. */
  predicate Drains(step: Step) {
    Works(step) || step.Process?
  }

  // ---- The measure ----

  function Weight(p: Phase): nat {
    match p
    case InHeap => 10
    case Popped => 11
    case Cleared => 10
    case Denied => 5
    case Deferred => 4
    case Spawned => 6
    case Handling => 5
    case Ending(_) => 4
    case Recorded(_) => 3
    case Erased => 2
    case Gone => 1
    case Leaving => 1
  }

  function WeightAt(m: map<Entry, Copy>, e: Entry): nat {
    if e in m then Weight(m[e].phase) else 0
  }

  function TotalWeight(m: map<Entry, Copy>, n: nat): nat {
    if n == 0 then 0 else TotalWeight(m, n - 1) + WeightAt(m, n - 1)
  }

  function ThreadWork(t: Threads): nat {
    3 * |t.waiting| + 2 * |t.ready| + |t.exiting|
  }

  /** Work left with dispatchers and executions: every copy by how far it is from gone,
      every idle dispatcher thread by how far it is from exiting. */
  function WorkLeft(s: State): nat {
    TotalWeight(s.places.copies, s.places.next) + ThreadWork(s.threads)
  }

  /** What a scan under way may still add: a copy and a fed pool for each task of its
      snapshot, a dispatcher for each fed pool. */
  function ScanWork(scan: Processor): nat {
    match scan
    case Idle => 0
    case Spawning(pools) => 1 + 4 * |pools|
    case Read(tasks) => 2 + 14 * |tasks|
  }

  function TotalWork(s: State): nat {
    WorkLeft(s) + ScanWork(s.scan)
  }

  lemma {:induction false} OneCopyChanges(m: map<Entry, Copy>, m': map<Entry, Copy>, e: Entry, n: nat)
    requires forall f | f != e :: WeightAt(m', f) == WeightAt(m, f)
    ensures TotalWeight(m', n) ==
      if e < n then TotalWeight(m, n) - WeightAt(m, e) + WeightAt(m', e) else TotalWeight(m, n)
    ensures e < n ==> TotalWeight(m, n) >= WeightAt(m, e)
  {
    if n != 0 { OneCopyChanges(m, m', e, n - 1); }
  }

  /** A copy loses more weight than the threads gain. */
  lemma CopyShrinks(s: State, s': State, e: Entry)
    requires Exclusive(s.places) && e in s.places.copies && s'.places.next == s.places.next
    requires forall f | f != e :: f in s'.places.copies <==> f in s.places.copies
    requires forall f | f != e && f in s.places.copies :: s'.places.copies[f] == s.places.copies[f]
    requires WeightAt(s'.places.copies, e) + ThreadWork(s'.threads)
      < WeightAt(s.places.copies, e) + ThreadWork(s.threads)
    ensures WorkLeft(s') < WorkLeft(s) && s'.places.copies.Keys <= s.places.copies.Keys
  {
    OneCopyChanges(s.places.copies, s'.places.copies, e, s.places.next);
  }

  lemma DispatchShrinks(s: State, step: DispatchStep)
    requires Exclusive(s.places) && DispatchEnabled(s, step)
    ensures WorkLeft(NextDispatch(s, step)) < WorkLeft(s)
    ensures NextDispatch(s, step).places.copies.Keys <= s.places.copies.Keys
  {
    hide Exclusive, WorkLeft;
    var s' := NextDispatch(s, step);
    if step.Acquire? || step.PopEmpty? || step.ExitDispatcher? {
      ThreadsShrink(s, step);
    } else {
      CopyShrinks(s, s', step.e);
    }
  }

  lemma ThreadsShrink(s: State, step: DispatchStep)
    requires DispatchEnabled(s, step) && (step.Acquire? || step.PopEmpty? || step.ExitDispatcher?)
    ensures WorkLeft(NextDispatch(s, step)) < WorkLeft(s) && NextDispatch(s, step).places == s.places
  {
    hide TotalWeight, WorkLeft;
    var t, t' := s.threads, NextDispatch(s, step).threads;
    match step {
      case Acquire(_) =>
        assert |t'.waiting| == |t.waiting| - 1 && |t'.ready| == |t.ready| + 1 && t'.exiting == t.exiting;
      case PopEmpty(_) =>
        assert |t'.ready| == |t.ready| - 1 && |t'.exiting| == |t.exiting| + 1 && t'.waiting == t.waiting;
      case ExitDispatcher(_) =>
        assert |t'.exiting| == |t.exiting| - 1 && t'.waiting == t.waiting && t'.ready == t.ready;
    }
    LessThreadWork(s, NextDispatch(s, step));
  }

  lemma LessThreadWork(s: State, s': State)
    requires s'.places == s.places && ThreadWork(s'.threads) < ThreadWork(s.threads)
    ensures WorkLeft(s') < WorkLeft(s)
  {}

  lemma RunShrinks(s: State, step: RunStep)
    requires Exclusive(s.places) && RunEnabled(s, step)
    ensures WorkLeft(NextRun(s, step)) < WorkLeft(s)
    ensures NextRun(s, step).places.copies.Keys <= s.places.copies.Keys
  {
    hide Exclusive, WorkLeft, Saved;
    CopyShrinks(s, NextRun(s, step), step.e);
  }

  lemma FinishShrinks(s: State, step: FinishStep)
    requires Exclusive(s.places) && FinishEnabled(s, step)
    ensures WorkLeft(NextFinish(s, step)) < WorkLeft(s)
    ensures NextFinish(s, step).places.copies.Keys <= s.places.copies.Keys
  {
    hide Exclusive, WorkLeft, Deleted;
    CopyShrinks(s, NextFinish(s, step), step.e);
  }

  /** One task of the snapshot adds one copy and one fed pool at most. */
  lemma {:induction false} AdmissionAdds(pl: Places, tasks: seq<Task>, now: Time)
    requires forall e | e in pl.copies :: e < pl.next
    ensures var pl' := AdmitAll(pl, tasks, now);
      && TotalWeight(pl'.copies, pl'.next) <= TotalWeight(pl.copies, pl.next) + 10 * |tasks|
      && |PoolsFed(pl, tasks, now)| <= |tasks|
  {
    if tasks != [] {
      var init, t := tasks[..|tasks| - 1], tasks[|tasks| - 1];
      AdmissionAdds(pl, init, now);
      AdmitAllAdds(pl, init, now);
      var before := AdmitAll(pl, init, now);
      OneCopyChanges(before.copies, before.copies[before.next := Copy(t, InHeap)], before.next, before.next);
    }
  }

  lemma AdmitShrinks(s: State, now: Time)
    requires Exclusive(s.places) && s.scan.Read?
    ensures TotalWork(NextScan(s, ScanAdmit(now))) < TotalWork(s)
  {
    AdmissionAdds(s.places, s.scan.tasks, now);
    hide Exclusive, AdmitAll, PoolsFed, TotalWeight;
  }

  lemma SpawnShrinks(s: State, pool: string)
    requires ScanEnabled(s, ScanSpawn(pool))
    ensures TotalWork(NextScan(s, ScanSpawn(pool))) < TotalWork(s)
  {
    hide TotalWeight, WantsDispatcher;
    assert |s.scan.pools - {pool}| == |s.scan.pools| - 1;
  }

  lemma ScanShrinks(s: State, step: ScanStep)
    requires Exclusive(s.places) && s.paused && ScanEnabled(s, step)
    ensures TotalWork(NextScan(s, step)) < TotalWork(s)
    ensures !s.scan.Read? ==> NextScan(s, step).places == s.places && !NextScan(s, step).scan.Read?
  {
    hide Exclusive, WorkLeft;
    match step
    case ScanAdmit(now) => AdmitShrinks(s, now);
    case ScanSpawn(pool) => SpawnShrinks(s, pool);
    case ScanDone => SameWork(s, NextScan(s, step));
  }

  /** In a paused engine, whatever its processor was doing when the pause came, every step
      of the processor, a dispatcher or an execution shrinks the total work, and no other
      step changes it; only a snapshot already read is still admitted. */
  lemma PausedStep(s: State, step: Step)
    requires Safe(s) && s.paused && Enabled(s, step) && !Restarts(step)
    ensures var s' := Next(s, step);
      && s'.paused && (!s.scan.Read? ==> !s'.scan.Read? && s'.places.copies.Keys <= s.places.copies.Keys)
      && if Drains(step) then TotalWork(s') < TotalWork(s) else TotalWork(s') == TotalWork(s)
  {
    hide WorkLeft, StoreSound, NothingVanishes, LiveCopies, Exclusive, Saved, Deleted, Compacted, AdmitAll;
    match step
    case Dispatch(x) => DispatchShrinks(s, x);
    case Execute(x) => RunShrinks(s, x);
    case Finish(x) => FinishShrinks(s, x);
    case Enqueue(_) => SameWork(s, Next(s, step));
    case Outside(_) => SameWork(s, Next(s, step));
    case Process(x) => ScanShrinks(s, x);
  }

  lemma SameWork(s: State, s': State)
    requires s'.places == s.places && s'.threads == s.threads
    ensures WorkLeft(s') == WorkLeft(s)
  {}

  function DrainSteps(steps: seq<Step>): nat {
    if steps == [] then 0 else (if Drains(steps[0]) then 1 else 0) + DrainSteps(steps[1..])
  }

  /** The drain is finite: from any safe state in which it is paused, scan under way or
      not, an engine takes at most as many more processor, dispatcher and execution steps
      as there is total work, however its threads interleave. */
  lemma {:induction false} DrainTerminates(s: State, steps: seq<Step>)
    requires Safe(s) && s.paused && PossibleRun(s, steps)
    requires forall i | 0 <= i < |steps| :: !Restarts(steps[i])
    ensures var s' := Run(s, steps);
      && s'.paused && (!s.scan.Read? ==> s'.places.copies.Keys <= s.places.copies.Keys)
      && DrainSteps(steps) + TotalWork(s') <= TotalWork(s)
    decreases |steps|
  {
    hide TotalWork, Safe;
    if steps != [] {
      PausedStep(s, steps[0]);
      StepSafe(s, steps[0]);
      DrainTerminates(Next(s, steps[0]), steps[1..]);
    }
  }

  /** An execution can always take its next step, whatever its handler does. */
  lemma ExecutionCanStep(s: State, e: Entry) returns (step: Step)
    requires e in s.places.copies && !IsQueued(s.places.copies[e].phase)
    ensures Works(step) && Enabled(s, step)
  {
    step := match s.places.copies[e].phase
      case Spawned => Execute(CheckCompleted(e))
      case Handling => Execute(Succeed(e))
      case Ending(_) => Finish(RecordCompleted(e, 0))
      case Recorded(_) => Finish(Erase(e, 0))
      case Erased => Finish(ReleaseHash(e))
      case _ => Finish(Leave(e));
  }

  /** With no work left there is no copy of any task in memory: nothing is queued, and all
      that is executing is what early returns left behind. */
  lemma NoWorkNoCopies(s: State)
    requires Safe(s) && TotalWork(s) == 0
    ensures s.places.copies == map[] && s.places.queued == {} && s.scan.Idle?
    ensures s.places.executing == s.places.stuck
  {
    hide StoreSound, NothingVanishes, LiveCopies;
    forall e ensures e !in s.places.copies {
      if e in s.places.copies {
        assert WeightAt(s.places.copies, e) > 0;
        OneCopyChanges(s.places.copies, s.places.copies, e, s.places.next);
      }
    }
  }

  /** In accounted states there is no such thing, so nothing is executing. */
  lemma NoWorkNothingExecuting(s: State)
    requires Accounted(s) && TotalWork(s) == 0
    ensures s.places.copies == map[] && s.places.queued == {} && s.places.executing == {} && s.scan.Idle?
  {
    NoWorkNoCopies(s);
    assert s.places.stuck == {};
  }

  /** The same when no dispatcher or execution can take a step any more. */
  lemma DrainedIsStuck(s: State)
    requires Safe(s) && forall step :: Enabled(s, step) ==> !Works(step)
    ensures s.places.executing == s.places.stuck
  {
    hide Enabled, StoreSound, NothingVanishes, LiveCopies;
    forall id | id in s.places.executing ensures id in s.places.stuck {
      if id !in s.places.stuck {
        var e :| Holds(s.places, e, id, false);
        var step := ExecutionCanStep(s, e);
        assert false;
      }
    }
  }

  lemma DrainedIsEmpty(s: State)
    requires Accounted(s) && forall step :: Enabled(s, step) ==> !Works(step)
    ensures s.places.executing == {}
  {
    DrainedIsStuck(s);
    hide Enabled;
    assert s.places.stuck == {};
  }

  // ---- What early returns leave behind ----

  /** An execution is about to find its task completed and return before its guard is built. */
  ghost predicate ReturnsEarly(s: State, step: Step)
    requires Enabled(s, step)
  {
    step.Execute? && step.run.CheckCompleted? && TaskOf(s, step.run.e).id in s.completed
  }

  lemma DispatchSticksNothing(s: State, step: DispatchStep)
    requires DispatchEnabled(s, step)
    ensures NextDispatch(s, step).places.stuck == s.places.stuck
  {}

  lemma RunSticks(s: State, step: RunStep)
    requires Exclusive(s.places) && RunEnabled(s, step)
    ensures s.places.stuck <= NextRun(s, step).places.stuck
    ensures NextRun(s, step).places.stuck != s.places.stuck <==> ReturnsEarly(s, Execute(step))
  {
    hide Saved;
    if ReturnsEarly(s, Execute(step)) {
      var id := TaskOf(s, step.e).id;
      assert id !in s.places.stuck && id in NextRun(s, step).places.stuck;
    }
  }

  lemma FinishSticksNothing(s: State, step: FinishStep)
    requires FinishEnabled(s, step)
    ensures NextFinish(s, step).places.stuck == s.places.stuck
  {}

  lemma ScanSticksNothing(s: State, step: ScanStep)
    requires Exclusive(s.places) && ScanEnabled(s, step)
    ensures NextScan(s, step).places.stuck == s.places.stuck
  {
    if step.ScanAdmit? {
      AdmitAllAdds(s.places, s.scan.tasks, step.now);
      assert NextScan(s, step).places == AdmitAll(s.places, s.scan.tasks, step.now);
    }
  }

  /** Within a process, ids are only ever added to those left behind, and one is added
      exactly when an execution takes the early return. */
  lemma SticksExactly(s: State, step: Step)
    requires Safe(s) && Enabled(s, step) && !Restarts(step)
    ensures s.places.stuck <= Next(s, step).places.stuck
    ensures Next(s, step).places.stuck != s.places.stuck <==> ReturnsEarly(s, step)
  {
    hide StoreSound, NothingVanishes, LiveCopies, Exclusive;
    match step
    case Dispatch(x) => DispatchSticksNothing(s, x);
    case Execute(x) => RunSticks(s, x);
    case Finish(x) => FinishSticksNothing(s, x);
    case Process(x) => ScanSticksNothing(s, x);
    case Enqueue(_) =>
    case Outside(_) =>
  }

  ghost predicate NeverReturnsEarly(s: State, steps: seq<Step>)
    requires PossibleRun(s, steps)
    decreases |steps|
  {
    steps == [] || (!ReturnsEarly(s, steps[0]) && NeverReturnsEarly(Next(s, steps[0]), steps[1..]))
  }

  lemma {:induction false} StuckRun(s: State, steps: seq<Step>)
    requires Safe(s) && PossibleRun(s, steps) && forall i | 0 <= i < |steps| :: !Restarts(steps[i])
    ensures Safe(Run(s, steps)) && s.places.stuck <= Run(s, steps).places.stuck
    ensures Run(s, steps).places.stuck == s.places.stuck <==> NeverReturnsEarly(s, steps)
    decreases |steps|
  {
    hide Safe, ReturnsEarly;
    if steps != [] {
      StepSafe(s, steps[0]);
      SticksExactly(s, steps[0]);
      StuckRun(Next(s, steps[0]), steps[1..]);
    }
  }

  /** An engine that runs dry, in every run. Let a process begin after any run `before` and
      take any steps, stale scans, reused ids and a pause at any moment included. When no
      work is left, or no dispatcher or execution can take a step, `executing_tasks` is
      empty if and only if no execution of the process has taken the early return. */
  lemma DryExactly(before: seq<Step>, steps: seq<Step>)
    requires PossibleRun(Initial, before) && Run(Initial, before).places == Nowhere
    requires PossibleRun(Run(Initial, before), steps) && forall i | 0 <= i < |steps| :: !Restarts(steps[i])
    requires var s := Run(Run(Initial, before), steps);
      TotalWork(s) == 0 || forall step :: Enabled(s, step) ==> !Works(step)
    ensures Run(Run(Initial, before), steps).places.executing == {} <==>
      NeverReturnsEarly(Run(Initial, before), steps)
  {
    var s0 := Run(Initial, before);
    var s := Run(s0, steps);
    InitialSafe();
    RunSafe(Initial, before);
    StuckRun(s0, steps);
    hide Safe, TotalWork, Enabled;
    if TotalWork(s) == 0 { NoWorkNoCopies(s); } else { DrainedIsStuck(s); }
  }

  // ---- What a pause does not stop ----

  function Admissions(steps: seq<Step>): nat {
    if steps == [] then 0
    else (if steps[0].Process? && steps[0].scan.ScanAdmit? then 1 else 0) + Admissions(steps[1..])
  }

  /** `paused` never becomes false again within a process, and after it is set at most the
      one scan that had already read its snapshot admits anything. */
  lemma {:induction false} PausedForGood(s: State, steps: seq<Step>)
    requires s.paused && PossibleRun(s, steps) && forall i | 0 <= i < |steps| :: !Restarts(steps[i])
    ensures Run(s, steps).paused && Admissions(steps) <= if s.scan.Read? then 1 else 0
    decreases |steps|
  {
    if steps != [] { PausedForGood(Next(s, steps[0]), steps[1..]); }
  }
}
