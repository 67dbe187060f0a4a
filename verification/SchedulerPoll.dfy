/** What the shutdown poll can miss: it takes an engine for drained when `executing_tasks`
    is empty (src/main.rs), and a paused engine with nothing executing may still start an
    execution (src/queue.rs). This module says exactly when. */
module SchedulerPoll {
  import opened Tasks
  import opened FileStore
  import opened Placement
  import opened Scheduler
  import opened SchedulerSafety
  import opened SchedulerDrain

  // ---- Every dispatcher thread is counted ----

  /** In a dispatcher's hand. */
  predicate InHand(p: Phase) {
    p.Popped? || p.Cleared? || p.Denied? || p.Deferred?
  }

  predicate HeldFor(copies: map<Entry, Copy>, e: Entry, pool: string) {
    e in copies && InHand(copies[e].phase) && PoolOf(copies[e].task) == pool
  }

  function Hands(copies: map<Entry, Copy>, pool: string): set<Entry> {
    set e | e in copies && HeldFor(copies, e, pool)
  }

  function ThreadsOf(s: State, pool: string): nat {
    s.threads.waiting[pool] + s.threads.ready[pool] + s.threads.exiting[pool] + |Hands(s.places.copies, pool)|
  }

  /** A pool's counter is the number of its dispatcher threads, and never above two. */
  ghost predicate Counted(s: State) {
    forall pool :: s.threads.counts[pool] == ThreadsOf(s, pool) <= 2
  }

  lemma HandsChange(copies: map<Entry, Copy>, copies': map<Entry, Copy>, e: Entry, pool: string)
    requires forall f | f != e :: HeldFor(copies', f, pool) <==> HeldFor(copies, f, pool)
    ensures |Hands(copies', pool)| == |Hands(copies, pool)|
      - (if HeldFor(copies, e, pool) then 1 else 0) + (if HeldFor(copies', e, pool) then 1 else 0)
  {
    HandsWithout(copies, e, pool);
    HandsWithout(copies', e, pool);
    hide Hands, HeldFor;
    assert OtherHands(copies, e, pool) == OtherHands(copies', e, pool);
  }

  function OtherHands(copies: map<Entry, Copy>, e: Entry, pool: string): set<Entry> {
    set f | f in copies && f != e && HeldFor(copies, f, pool)
  }

  lemma HandsWithout(copies: map<Entry, Copy>, e: Entry, pool: string)
    ensures |OtherHands(copies, e, pool)| == |Hands(copies, pool)| - if HeldFor(copies, e, pool) then 1 else 0
    ensures forall f :: f in OtherHands(copies, e, pool) <==> f != e && HeldFor(copies, f, pool)
  {
    assert OtherHands(copies, e, pool) == Hands(copies, pool) - {e};
  }

  lemma SameHands(copies: map<Entry, Copy>, copies': map<Entry, Copy>, pool: string)
    requires forall f :: HeldFor(copies', f, pool) <==> HeldFor(copies, f, pool)
    ensures Hands(copies', pool) == Hands(copies, pool)
  {}

  /** The threads of the pool that hold no copy, and the one that may hold copy e. */
  function FoundAt(s: State, e: Entry, pool: string): nat {
    s.threads.waiting[pool] + s.threads.ready[pool] + s.threads.exiting[pool]
    + if HeldFor(s.places.copies, e, pool) then 1 else 0
  }

  /** One copy changes, and for each pool as many threads are found in another place. */
  lemma OneCopyCounted(s: State, s': State, e: Entry)
    requires Counted(s) && s'.threads.counts == s.threads.counts
    requires s'.places.copies - {e} == s.places.copies - {e}
    requires forall pool :: FoundAt(s', e, pool) == FoundAt(s, e, pool)
    ensures Counted(s')
  {
    forall pool ensures s'.threads.counts[pool] == ThreadsOf(s', pool) <= 2 {
      assert s.threads.counts[pool] == ThreadsOf(s, pool) <= 2;
      forall f | f != e ensures HeldFor(s'.places.copies, f, pool) <==> HeldFor(s.places.copies, f, pool) {
        assert f in s.places.copies <==> f in s.places.copies - {e};
        assert f in s'.places.copies <==> f in s'.places.copies - {e};
      }
      HandsChange(s.places.copies, s'.places.copies, e, pool);
      assert FoundAt(s', e, pool) == FoundAt(s, e, pool);
    }
  }

  lemma ThreadsCounted(s: State, step: DispatchStep)
    requires Counted(s) && DispatchEnabled(s, step) && (step.Acquire? || step.PopEmpty? || step.ExitDispatcher?)
    ensures Counted(NextDispatch(s, step))
  {
    var s' := NextDispatch(s, step);
    forall pool ensures s'.threads.counts[pool] == ThreadsOf(s', pool) <= 2 {
      assert s.threads.counts[pool] == ThreadsOf(s, pool) <= 2;
    }
  }

  lemma DispatchCounted(s: State, step: DispatchStep)
    requires Counted(s) && DispatchEnabled(s, step)
    ensures Counted(NextDispatch(s, step))
  {
    hide Saved, Counted;
    var s' := NextDispatch(s, step);
    if step.Acquire? || step.PopEmpty? || step.ExitDispatcher? {
      ThreadsCounted(s, step);
    } else {
      assert s'.places.copies - {step.e} == s.places.copies - {step.e};
      OneCopyCounted(s, s', step.e);
    }
  }

  lemma AdmitCounted(s: State, now: Time)
    requires Exclusive(s.places) && Counted(s) && s.scan.Read?
    ensures Counted(NextScan(s, ScanAdmit(now)))
  {
    var s' := NextScan(s, ScanAdmit(now));
    AdmitAllAdds(s.places, s.scan.tasks, now);
    assert s'.places == AdmitAll(s.places, s.scan.tasks, now) && s'.threads == s.threads;
    hide Exclusive, AdmitAll, PoolsFed, NextScan;
    forall pool ensures s'.threads.counts[pool] == ThreadsOf(s', pool) <= 2 {
      assert s.threads.counts[pool] == ThreadsOf(s, pool) <= 2;
      SameHands(s.places.copies, s'.places.copies, pool);
    }
  }

  lemma SpawnCounted(s: State, pool: string)
    requires Counted(s) && ScanEnabled(s, ScanSpawn(pool))
    ensures Counted(NextScan(s, ScanSpawn(pool)))
  {
    var s' := NextScan(s, ScanSpawn(pool));
    assert s'.places == s.places;
    hide Hands;
    forall other ensures s'.threads.counts[other] == ThreadsOf(s', other) <= 2 {
      assert s.threads.counts[other] == ThreadsOf(s, other) <= 2;
    }
  }

  lemma ScanCounted(s: State, step: ScanStep)
    requires Safe(s) && Counted(s) && ScanEnabled(s, step)
    ensures Counted(NextScan(s, step))
  {
    hide Counted;
    match step
    case ScanAdmit(now) => AdmitCounted(s, now);
    case ScanSpawn(pool) => SpawnCounted(s, pool);
    case _ => SamePlaces(s, NextScan(s, step));
  }

  lemma AnswerCounted(s: State, step: RunStep)
    requires Counted(s) && RunEnabled(s, step)
    ensures Counted(NextRun(s, step))
  {
    hide Saved, Counted, UpdateRetryConfig, Rescheduled;
    assert NextRun(s, step).places.copies - {step.e} == s.places.copies - {step.e};
    OneCopyCounted(s, NextRun(s, step), step.e);
  }

  lemma FinishCounted(s: State, step: FinishStep)
    requires Counted(s) && FinishEnabled(s, step)
    ensures Counted(NextFinish(s, step))
  {
    hide Deleted, Counted;
    assert NextFinish(s, step).places.copies - {step.e} == s.places.copies - {step.e};
    OneCopyCounted(s, NextFinish(s, step), step.e);
  }

  lemma StepCounted(s: State, step: Step)
    requires Safe(s) && Counted(s) && Enabled(s, step)
    ensures Counted(Next(s, step))
  {
    hide Safe;
    match step
    case Dispatch(x) => DispatchCounted(s, x);
    case Process(x) => ScanCounted(s, x);
    case Execute(x) => AnswerCounted(s, x);
    case Finish(x) => FinishCounted(s, x);
    case Enqueue(_) => SamePlaces(s, Next(s, step));
    case Outside(x) => OutsideCounted(s, x);
  }

  lemma SamePlaces(s: State, s': State)
    requires Counted(s) && s'.places == s.places && s'.threads == s.threads
    ensures Counted(s')
  {
    forall pool ensures s'.threads.counts[pool] == ThreadsOf(s', pool) <= 2 {
      assert s.threads.counts[pool] == ThreadsOf(s, pool) <= 2;
    }
  }

  lemma NothingCounted(s: State)
    requires s.places == Nowhere && s.threads == Initial.threads
    ensures Counted(s)
  {
    forall pool ensures Hands(s.places.copies, pool) == {} {}
  }

  lemma OutsideCounted(s: State, step: OutsideStep)
    requires Counted(s) && OutsideEnabled(s, step)
    ensures Counted(NextOutside(s, step))
  {
    if step.Crash? || step.CrashAndReplay? {
      NothingCounted(NextOutside(s, step));
    } else {
      SamePlaces(s, NextOutside(s, step));
    }
  }

  lemma {:induction false} RunCounted(s: State, steps: seq<Step>)
    requires Safe(s) && Counted(s) && PossibleRun(s, steps)
    ensures Safe(Run(s, steps)) && Counted(Run(s, steps))
    decreases |steps|
  {
    hide Safe, Counted;
    if steps != [] {
      StepSafe(s, steps[0]);
      StepCounted(s, steps[0]);
      RunCounted(Next(s, steps[0]), steps[1..]);
    }
  }

  /** In every run a pool's dispatcher counter is the number of its dispatcher threads, in
      whatever part of their loop, and it is at most two. */
  lemma AtMostTwoDispatchers(steps: seq<Step>, pool: string)
    requires PossibleRun(Initial, steps)
    ensures var s := Run(Initial, steps); s.threads.counts[pool] == ThreadsOf(s, pool) <= 2
  {
    InitialSafe();
    NothingCounted(Initial);
    RunCounted(Initial, steps);
  }

  // ---- When a paused engine can still start something ----

  predicate AtHand(copies: map<Entry, Copy>, e: Entry) {
    e in copies && (copies[e].phase.Popped? || copies[e].phase.Cleared?)
  }

  predicate PutBack(copies: map<Entry, Copy>, e: Entry, pool: string) {
    e in copies && (copies[e].phase.Denied? || copies[e].phase.Deferred?) && PoolOf(copies[e].task) == pool
  }

  predicate InSomeHeap(copies: map<Entry, Copy>, e: Entry, id: TaskId) {
    e in copies && copies[e].phase.InHeap? && copies[e].task.id == id
  }

  ghost predicate InNoHeap(copies: map<Entry, Copy>, id: TaskId) {
    forall e :: !InSomeHeap(copies, e, id)
  }

  /** A dispatcher thread of the pool will look at its heap again, or is about to be
      started for it. */
  ghost predicate Served(s: State, pool: string) {
    || pool in s.threads.waiting || pool in s.threads.ready
    || (exists e :: PutBack(s.places.copies, e, pool))
    || (s.scan.Spawning? && pool in s.scan.pools)
  }

  /** A task is in a dispatcher's hand past the pop and not refused; or in the heap of a
      pool that is served; or a scan holds a live task in its snapshot that no heap has. */
  ghost predicate Poised(s: State) {
    || (exists e :: AtHand(s.places.copies, e))
    || (exists pool, e :: InHeapOf(s.places.copies, e, pool) && Served(s, pool))
    || (s.scan.Read? && exists t :: t in s.scan.tasks && t.deletedAt.None? && InNoHeap(s.places.copies, t.id))
  }

  ghost predicate NoRestart(steps: seq<Step>) {
    forall i | 0 <= i < |steps| :: !Restarts(steps[i])
  }

  /** Some continuation within the process starts an execution. */
  ghost predicate CanStart(s: State) {
    exists steps :: PossibleRun(s, steps) && NoRestart(steps) && Run(s, steps).places.executing != {}
  }

  lemma AlreadyStarted(s: State)
    requires s.places.executing != {}
    ensures CanStart(s)
  {
    assert PossibleRun(s, []) && NoRestart([]) && Run(s, []) == s;
  }

  lemma FirstStep(s: State, step: Step)
    requires Enabled(s, step) && !Restarts(step) && CanStart(Next(s, step))
    ensures CanStart(s)
  {
    var rest :| PossibleRun(Next(s, step), rest) && NoRestart(rest) && Run(Next(s, step), rest).places.executing != {};
    var steps := [step] + rest;
    assert steps[0] == step && steps[1..] == rest;
    assert PossibleRun(s, steps) && Run(s, steps) == Run(Next(s, step), rest);
    assert NoRestart(steps);
  }

  // ---- Poised is enough ----

  lemma ClearedStarts(s: State, e: Entry)
    requires In(s, e, Cleared)
    ensures CanStart(s)
  {
    AlreadyStarted(Next(s, Dispatch(Begin(e))));
    FirstStep(s, Dispatch(Begin(e)));
  }

  lemma AtHandStarts(s: State, e: Entry)
    requires AtHand(s.places.copies, e)
    ensures CanStart(s)
  {
    if In(s, e, Popped) {
      ClearedStarts(Next(s, Dispatch(Clear(e))), e);
      FirstStep(s, Dispatch(Clear(e)));
    } else {
      ClearedStarts(s, e);
    }
  }

  function HeapOf(copies: map<Entry, Copy>, pool: string): set<Entry> {
    set e | e in copies && InHeapOf(copies, e, pool)
  }

  /** A heap that holds something has a most urgent copy. */
  lemma {:induction false} MostUrgent(copies: map<Entry, Copy>, heap: set<Entry>) returns (top: Entry)
    requires heap != {} && heap <= copies.Keys
    ensures top in heap && forall e | e in heap :: Urgency(copies[e].task) <= Urgency(copies[top].task)
    decreases heap
  {
    var first :| first in heap;
    var rest := heap - {first};
    top := first;
    if rest != {} {
      var other := MostUrgent(copies, rest);
      if Urgency(copies[first].task) < Urgency(copies[other].task) {
        top := other;
      }
    }
    assert forall e | e in heap :: e == first || e in rest;
  }

  lemma ReadyStarts(s: State, pool: string, e: Entry)
    requires pool in s.threads.ready && InHeapOf(s.places.copies, e, pool)
    ensures CanStart(s)
  {
    assert e in HeapOf(s.places.copies, pool);
    var top := MostUrgent(s.places.copies, HeapOf(s.places.copies, pool));
    forall f | InHeapOf(s.places.copies, f, pool) ensures Urgency(TaskOf(s, f)) <= Urgency(TaskOf(s, top)) {
      assert f in HeapOf(s.places.copies, pool);
    }
    var step := Dispatch(Pop(pool, top));
    AtHandStarts(Next(s, step), top);
    FirstStep(s, step);
  }

  lemma WaitingStarts(s: State, pool: string, e: Entry)
    requires pool in s.threads.waiting && InHeapOf(s.places.copies, e, pool)
    ensures CanStart(s)
  {
    var step := Dispatch(Acquire(pool));
    ReadyStarts(Next(s, step), pool, e);
    FirstStep(s, step);
  }

  lemma PutBackStarts(s: State, d: Entry, pool: string, e: Entry)
    requires PutBack(s.places.copies, d, pool) && InHeapOf(s.places.copies, e, pool)
    ensures CanStart(s)
    decreases s.places.copies[d].phase.Denied?
  {
    if In(s, d, Denied) {
      var step := Dispatch(DeferSave(d, 0));
      PutBackStarts(Next(s, step), d, pool, e);
      FirstStep(s, step);
    } else {
      var step := Dispatch(DeferRemove(d));
      WaitingStarts(Next(s, step), pool, e);
      FirstStep(s, step);
    }
  }

  /** Two dispatchers that are both on their way out only delay the spawn. */
  lemma {:induction false} SpawningStarts(s: State, pool: string, e: Entry)
    requires Counted(s) && s.scan.Spawning? && pool in s.scan.pools && InHeapOf(s.places.copies, e, pool)
    ensures CanStart(s)
    decreases s.threads.exiting[pool]
  {
    assert s.threads.counts[pool] == ThreadsOf(s, pool) <= 2;
    if pool in s.threads.waiting {
      WaitingStarts(s, pool, e);
    } else if pool in s.threads.ready {
      ReadyStarts(s, pool, e);
    } else if d :| HeldFor(s.places.copies, d, pool) {
      if AtHand(s.places.copies, d) { AtHandStarts(s, d); } else { PutBackStarts(s, d, pool, e); }
    } else if s.threads.counts[pool] < 2 {
      var step := Process(ScanSpawn(pool));
      WaitingStarts(Next(s, step), pool, e);
      FirstStep(s, step);
    } else {
      assert Hands(s.places.copies, pool) == {};
      var step := Dispatch(ExitDispatcher(pool));
      DispatchCounted(s, step.dispatch);
      SpawningStarts(Next(s, step), pool, e);
      FirstStep(s, step);
    }
  }

  lemma {:induction false} PushedIsFed(pl: Places, tasks: seq<Task>, now: Time)
    requires forall e | e in pl.copies :: e < pl.next
    ensures var pl' := AdmitAll(pl, tasks, now);
      forall e | e in pl'.copies && e !in pl.copies :: PoolOf(pl'.copies[e].task) in PoolsFed(pl, tasks, now)
  {
    if tasks != [] {
      PushedIsFed(pl, tasks[..|tasks| - 1], now);
      AdmitAllAdds(pl, tasks[..|tasks| - 1], now);
    }
  }

  lemma {:induction false} DueIsQueued(pl: Places, tasks: seq<Task>, now: Time, t: Task)
    requires t in tasks && Due(t, now) && pl.executing == {}
    ensures t.id in AdmitAll(pl, tasks, now).queued && AdmitAll(pl, tasks, now).executing == {}
  {
    var init, last := tasks[..|tasks| - 1], tasks[|tasks| - 1];
    assert tasks == init + [last];
    NothingExecutes(pl, init, now);
    if t in init { DueIsQueued(pl, init, now, t); }
  }

  lemma {:induction false} NothingExecutes(pl: Places, tasks: seq<Task>, now: Time)
    ensures AdmitAll(pl, tasks, now).executing == pl.executing
  {
    if tasks != [] { NothingExecutes(pl, tasks[..|tasks| - 1], now); }
  }

  /** Admitted late enough, a live task that is not queued is pushed and its pool served. */
  lemma SnapshotStarts(s: State, t: Task)
    requires Safe(s) && Counted(s) && s.places.executing == {}
    requires s.scan.Read? && t in s.scan.tasks && t.deletedAt.None? && t.id !in s.places.queued
    ensures CanStart(s)
  {
    var now := if t.executeAt < t.retryAfterTime then t.retryAfterTime else t.executeAt;
    var step := Process(ScanAdmit(now));
    var s' := Next(s, step);
    StepSafe(s, step);
    StepCounted(s, step);
    DueIsQueued(s.places, s.scan.tasks, now, t);
    var e :| Holds(s'.places, e, t.id, true);
    AdmitAllAdds(s.places, s.scan.tasks, now);
    // Had e been there before, its id would have been queued.
    var was := Holds(s.places, e, t.id, true);
    PushedIsFed(s.places, s.scan.tasks, now);
    SpawningStarts(s', PoolOf(TaskOf(s', e)), e);
    FirstStep(s, step);
  }

  /** A refused copy of the same task is removed first. */
  lemma RefusedThenAdmitted(s: State, t: Task, e: Entry)
    requires Safe(s) && Counted(s) && s.places.executing == {}
    requires s.scan.Read? && t in s.scan.tasks && t.deletedAt.None?
    requires In(s, e, Denied) || In(s, e, Deferred)
    requires TaskOf(s, e).id == t.id
    ensures CanStart(s)
    decreases s.places.copies[e].phase.Denied?
  {
    var step := Dispatch(if In(s, e, Denied) then DeferSave(e, 0) else DeferRemove(e));
    StepSafe(s, step);
    StepCounted(s, step);
    if In(s, e, Denied) {
      RefusedThenAdmitted(Next(s, step), t, e);
    } else {
      SnapshotStarts(Next(s, step), t);
    }
    FirstStep(s, step);
  }

  lemma PoisedStarts(s: State)
    requires Safe(s) && Counted(s) && s.places.executing == {} && Poised(s)
    ensures CanStart(s)
  {
    if e :| AtHand(s.places.copies, e) {
      AtHandStarts(s, e);
    } else if pool, e :| InHeapOf(s.places.copies, e, pool) && Served(s, pool) {
      if pool in s.threads.waiting {
        WaitingStarts(s, pool, e);
      } else if pool in s.threads.ready {
        ReadyStarts(s, pool, e);
      } else if d :| PutBack(s.places.copies, d, pool) {
        PutBackStarts(s, d, pool, e);
      } else {
        SpawningStarts(s, pool, e);
      }
    } else {
      var t :| t in s.scan.tasks && t.deletedAt.None? && InNoHeap(s.places.copies, t.id);
      if t.id in s.places.queued {
        var e :| Holds(s.places, e, t.id, true);
        assert !InSomeHeap(s.places.copies, e, t.id) && !AtHand(s.places.copies, e);
        RefusedThenAdmitted(s, t, e);
      } else {
        SnapshotStarts(s, t);
      }
    }
  }

  // ---- Not poised stays not poised ----

  lemma {:induction false} NothingPushed(pl: Places, tasks: seq<Task>, now: Time)
    requires forall t | t in tasks && t.deletedAt.None? :: t.id in pl.queued
    ensures AdmitAll(pl, tasks, now) == pl && PoolsFed(pl, tasks, now) == {}
  {
    if tasks != [] {
      NothingPushed(pl, tasks[..|tasks| - 1], now);
    }
  }

  /** With nothing executing every copy is on the queued side. */
  lemma AllQueued(pl: Places, e: Entry)
    requires Exclusive(pl) && pl.executing == {} && e in pl.copies
    ensures IsQueued(pl.copies[e].phase)
  {
    if !IsQueued(pl.copies[e].phase) {
      assert Holds(pl, e, pl.copies[e].task.id, false);
    }
  }

  lemma ScanStaysUnpoised(s: State, step: ScanStep)
    requires Exclusive(s.places) && s.paused && s.places.executing == {} && !Poised(s) && ScanEnabled(s, step)
    ensures NextScan(s, step).places == s.places && !Poised(NextScan(s, step))
  {
    if step.ScanAdmit? {
      forall t | t in s.scan.tasks && t.deletedAt.None? ensures t.id in s.places.queued {
        assert !InNoHeap(s.places.copies, t.id);
        var e :| InSomeHeap(s.places.copies, e, t.id);
        assert Holds(s.places, e, t.id, true);
      }
      NothingPushed(s.places, s.scan.tasks, step.now);
    }
    var s' := NextScan(s, step);
    forall pool, e | InHeapOf(s'.places.copies, e, pool) ensures !Served(s', pool) {
      assert !Served(s, pool);
    }
  }

  /** Not poised survives when nothing comes to hand, no heap and no service is gained,
      and the scan and the heaps it goes by stay. */
  lemma UnpoisedFrame(s: State, s': State)
    requires !Poised(s) && s'.scan == s.scan
    requires forall e :: !AtHand(s'.places.copies, e)
    requires forall e | e in s.places.copies && s.places.copies[e].phase.InHeap? ::
      e in s'.places.copies && s'.places.copies[e] == s.places.copies[e]
    requires forall e | e in s'.places.copies && s'.places.copies[e].phase.InHeap? ::
      e in s.places.copies && s'.places.copies[e] == s.places.copies[e]
    requires forall pool, e :: InHeapOf(s.places.copies, e, pool) && Served(s', pool) ==> Served(s, pool)
    ensures !Poised(s')
  {
    forall pool, e | InHeapOf(s'.places.copies, e, pool) ensures !Served(s', pool) {
      assert InHeapOf(s.places.copies, e, pool);
    }
    if s'.scan.Read? {
      forall t | t in s'.scan.tasks && t.deletedAt.None? ensures !InNoHeap(s'.places.copies, t.id) {
        assert !InNoHeap(s.places.copies, t.id);
        var e :| InSomeHeap(s.places.copies, e, t.id);
        assert InSomeHeap(s'.places.copies, e, t.id);
      }
    }
  }

  lemma ThreadsStayUnpoised(s: State, step: DispatchStep)
    requires !Poised(s) && DispatchEnabled(s, step) && (step.Acquire? || step.PopEmpty? || step.ExitDispatcher?)
    ensures !Poised(NextDispatch(s, step))
  {
    UnpoisedFrame(s, NextDispatch(s, step));
  }

  lemma RefusalStaysUnpoised(s: State, step: DispatchStep)
    requires !Poised(s) && DispatchEnabled(s, step) && (step.DeferSave? || step.DeferRemove?)
    ensures !Poised(NextDispatch(s, step))
  {
    hide Saved, Poised;
    var s', own := NextDispatch(s, step), PoolOf(TaskOf(s, step.e));
    NothingAtHand(s);
    assert PutBack(s.places.copies, step.e, own);
    forall pool, e | InHeapOf(s.places.copies, e, pool) && Served(s', pool) ensures Served(s, pool) {
      if d :| PutBack(s'.places.copies, d, pool) {
        assert PutBack(s.places.copies, d, pool);
      }
    }
    assert forall e :: AtHand(s'.places.copies, e) ==> AtHand(s.places.copies, e);
    UnpoisedFrame(s, s');
  }

  lemma NothingAtHand(s: State)
    requires !Poised(s)
    ensures forall e :: !AtHand(s.places.copies, e)
  {}

  lemma DispatchStaysUnpoised(s: State, step: DispatchStep)
    requires !Poised(s) && DispatchEnabled(s, step)
    ensures NextDispatch(s, step).places.executing == s.places.executing && !Poised(NextDispatch(s, step))
  {
    hide Saved;
    if step.DeferSave? || step.DeferRemove? {
      RefusalStaysUnpoised(s, step);
    } else {
      OnlyThreads(s, step);
      ThreadsStayUnpoised(s, step);
    }
  }

  /** A pop would need its pool served, the other steps a copy at hand. */
  lemma OnlyThreads(s: State, step: DispatchStep)
    requires !Poised(s) && DispatchEnabled(s, step) && !step.DeferSave? && !step.DeferRemove?
    ensures step.Acquire? || step.PopEmpty? || step.ExitDispatcher?
  {
    // What would make the state poised, in the two cases.
    var held := (step.Clear? || step.Deny? || step.Begin?) && AtHand(s.places.copies, step.e);
    var served := step.Pop? && Served(s, step.pool);
  }

  lemma StaysUnpoised(s: State, step: Step)
    requires Safe(s) && s.paused && s.places.executing == {} && !Poised(s) && Enabled(s, step) && !Restarts(step)
    ensures var s' := Next(s, step); s'.paused && s'.places.executing == {} && !Poised(s')
  {
    match step
    case Dispatch(x) => DispatchStaysUnpoised(s, x);
    case Process(x) => ScanStaysUnpoised(s, x);
    case Execute(x) => AllQueued(s.places, x.e);
    case Finish(x) => AllQueued(s.places, x.e);
    case Enqueue(_) => SamePoise(s, Next(s, step));
    case Outside(_) => SamePoise(s, Next(s, step));
  }

  lemma SamePoise(s: State, s': State)
    requires s'.places == s.places && s'.threads == s.threads && s'.scan == s.scan && !Poised(s)
    ensures !Poised(s')
  {
    forall pool, e | InHeapOf(s'.places.copies, e, pool) ensures !Served(s', pool) {
      assert !Served(s, pool);
    }
  }

  lemma {:induction false} UnpoisedRun(s: State, steps: seq<Step>)
    requires Safe(s) && s.paused && s.places.executing == {} && !Poised(s)
    requires PossibleRun(s, steps) && NoRestart(steps)
    ensures Run(s, steps).places.executing == {}
    decreases |steps|
  {
    hide Safe, Poised;
    if steps != [] {
      StepSafe(s, steps[0]);
      StaysUnpoised(s, steps[0]);
      UnpoisedRun(Next(s, steps[0]), steps[1..]);
    }
  }

  /** The poll's blind spot, exactly. In every run, when an engine is paused and
      `executing_tasks` is empty, some continuation of the process still starts an
      execution if and only if the engine is poised: a task in a dispatcher's hand past the
      pop and not refused, a heap copy in a pool that a dispatcher will look at again or
      that a scan is about to start one for, or a snapshot with a live task no heap has. */
  lemma PollExact(steps: seq<Step>)
    requires PossibleRun(Initial, steps)
    requires Run(Initial, steps).paused && Run(Initial, steps).places.executing == {}
    ensures CanStart(Run(Initial, steps)) <==> Poised(Run(Initial, steps))
  {
    var s := Run(Initial, steps);
    InitialSafe();
    NothingCounted(Initial);
    RunCounted(Initial, steps);
    hide Poised, Safe, Counted;
    if Poised(s) {
      PoisedStarts(s);
    } else if CanStart(s) {
      var rest :| PossibleRun(s, rest) && NoRestart(rest) && Run(s, rest).places.executing != {};
      UnpoisedRun(s, rest);
    }
  }
}
