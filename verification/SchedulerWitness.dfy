/** Why the accounts need current snapshots, and what a drain poll cannot see: two
    concrete runs. */
module SchedulerWitness {
  import opened Tasks
  import opened FileStore
  import opened Placement
  import opened Scheduler
  import opened SchedulerSafety
  import opened SchedulerDrain

  ghost predicate Reachable(s: State) {
    exists steps :: PossibleRun(Initial, steps) && Run(Initial, steps) == s
  }

  lemma {:induction false} RunThenStep(s: State, steps: seq<Step>, step: Step)
    requires PossibleRun(s, steps) && Enabled(Run(s, steps), step)
    ensures PossibleRun(s, steps + [step]) && Run(s, steps + [step]) == Next(Run(s, steps), step)
    decreases |steps|
  {
    var all := steps + [step];
    if steps == [] {
      assert all[0] == step && all[1..] == [];
    } else {
      RunThenStep(Next(s, steps[0]), steps[1..], step);
      assert all[0] == steps[0] && all[1..] == steps[1..] + [step];
    }
  }

  lemma Reach(s: State, step: Step) returns (s': State)
    requires Reachable(s) && Enabled(s, step)
    ensures Reachable(s') && s' == Next(s, step)
  {
    var steps :| PossibleRun(Initial, steps) && Run(Initial, steps) == s;
    RunThenStep(Initial, steps, step);
    s' := Next(s, step);
    assert Run(Initial, steps + [step]) == s';
  }

  /** An id left behind in `executing_tasks` stays there until the process ends, so its
      task can never be admitted again. */
  lemma StuckForGood(s: State, step: Step, id: TaskId)
    requires Safe(s) && id in s.places.stuck && Enabled(s, step) && !Restarts(step)
    ensures id in Next(s, step).places.stuck && id in Next(s, step).places.executing
  {
    StepSafe(s, step);
    SticksExactly(s, step);
    hide Next, Enabled, StoreSound, NothingVanishes, LiveCopies;
  }

  /** A task of one attempt, and one of two. */
  const A: Task := Task("a", "", "", 1, 0, 0.0, 0, None, None, None, None, None, None, None, 0, None, None)
  const B: Task := A.(maxRetries := 2)

  /** A task like these: due at time 0, in the default pool, with no payload hash. */
  predicate Plain(t: Task) {
    && t.id == "a" && t.executeAt == 0 && t.retryAfterTime == 0 && t.deletedAt.None?
    && t.pool.None? && t.payloadHash.None? && t.cron.None?
  }

  const POOL: string := "default"

  /** One dispatcher waiting, nothing else going on. */
  const OneWaiting := Threads(multiset{POOL}, multiset{}, multiset{}, multiset{POOL})

  lemma Enqueued(t: Task) returns (s: State)
    requires Plain(t)
    ensures Reachable(s) && s.store.cache == map["a" := t]
    ensures s.places == Nowhere && s.completed == map[] && !s.paused && s.scan == Idle
    ensures s.threads == Initial.threads && s.hist.accepted == {"a"} && s.dedupe == Dedupe({}, map[])
  {
    assert PossibleRun(Initial, []) && Run(Initial, []) == Initial;
    s := Reach(Initial, Enqueue(EnqueueCheck(0, t)));
    s := Reach(s, Enqueue(EnqueueSave(0)));
  }

  lemma Snapshot(s: State, t: Task) returns (s': State)
    requires Reachable(s) && Plain(t) && s.store.cache == map["a" := t] && !s.paused && s.scan == Idle
    ensures Reachable(s') && s' == s.(scan := Read([t]))
  {
    s' := Reach(s, Process(ScanRead([t])));
  }

  lemma AdmitOnly(pl: Places, t: Task)
    requires Plain(t) && "a" !in pl.queued && "a" !in pl.executing
    ensures AdmitAll(pl, [t], 0) ==
      pl.(copies := pl.copies[pl.next := Copy(t, InHeap)], next := pl.next + 1, queued := pl.queued + {"a"})
    ensures PoolsFed(pl, [t], 0) == {POOL}
  {
    assert [t][..0] == [];
    assert AdmitAll(pl, [], 0) == pl;
  }

  /** In a fresh process: the first snapshot admitted, its dispatcher started. */
  lemma AdmittedFrom(s: State, t: Task) returns (s': State)
    requires Reachable(s) && Plain(t) && s.store.cache == map["a" := t]
    requires s.places == Nowhere && !s.paused && s.scan == Idle && s.threads == Initial.threads
    ensures Reachable(s') && s'.(places := s.places, threads := s.threads) == s
    ensures s'.places == Places(map[0 := Copy(t, InHeap)], 1, {"a"}, {}, {}) && s'.threads == OneWaiting
  {
    s' := Snapshot(s, t);
    AdmitOnly(s'.places, t);
    hide Reachable;
    s' := Reach(s', Process(ScanAdmit(0)));
    s' := DispatcherStarted(s');
  }

  /** The pool just fed gets its dispatcher, and the scan ends. */
  lemma DispatcherStarted(s: State) returns (s': State)
    requires Reachable(s) && s.scan == Spawning({POOL}) && s.threads == Initial.threads
    requires InHeapOf(s.places.copies, 0, POOL)
    ensures Reachable(s') && s' == s.(scan := Idle, threads := OneWaiting)
  {
    hide Reachable;
    s' := Reach(s, Process(ScanSpawn(POOL)));
    s' := Reach(s', Process(ScanDone));
  }

  lemma Admitted(t: Task) returns (s: State)
    requires Plain(t)
    ensures Reachable(s) && s.store.cache == map["a" := t] && s.completed == map[]
    ensures s.places == Places(map[0 := Copy(t, InHeap)], 1, {"a"}, {}, {}) && s.dedupe == Dedupe({}, map[])
    ensures !s.paused && s.scan == Idle && s.threads == OneWaiting && s.hist.accepted == {"a"}
  {
    s := Enqueued(t);
    s := AdmittedFrom(s, t);
  }

  /** A waiting dispatcher carries copy e to the point of starting it. */
  lemma Fetched(s: State, e: Entry, t: Task) returns (s': State)
    requires Reachable(s) && Plain(t) && s.threads == OneWaiting
    requires s.places.copies == map[e := Copy(t, InHeap)]
    ensures Reachable(s') && s'.places == s.places.(copies := map[e := Copy(t, Cleared)])
    ensures s'.(places := s.places, threads := s.threads) == s
    ensures s'.threads == OneWaiting.(waiting := multiset{})
  {
    hide Reachable, Saved;
    s' := Reach(s, Dispatch(Acquire(POOL)));
    assert InHeapOf(s'.places.copies, e, POOL);
    s' := Reach(s', Dispatch(Pop(POOL, e)));
    s' := Reach(s', Dispatch(Clear(e)));
  }

  lemma Started(s: State, e: Entry, t: Task) returns (s': State)
    requires Reachable(s) && Plain(t) && s.threads == OneWaiting.(waiting := multiset{})
    requires s.places.copies == map[e := Copy(t, Cleared)] && "a" !in s.places.executing
    ensures Reachable(s') && s'.(places := s.places, threads := s.threads) == s
    ensures s'.places == s.places.(copies := map[e := Copy(t, Spawned)], queued := s.places.queued - {"a"},
                                   executing := s.places.executing + {"a"})
    ensures s'.threads == OneWaiting
  {
    hide Reachable;
    s' := Reach(s, Dispatch(Begin(e)));
  }

  /** `executing_tasks` being empty does not mean a paused engine has drained: here it is
      empty, and the next step of a dispatcher starts a handler. */
  lemma EmptyExecutingIsNotDrained() returns (s: State, s': State)
    ensures Reachable(s) && Reachable(s') && s.paused && s.places.executing == {}
    ensures exists step :: Works(step) && Enabled(s, step) && s' == Next(s, step)
    ensures s'.paused && s'.places.executing == {"a"}
  {
    s := Admitted(A);
    s := Fetched(s, 0, A);
    s := Reach(s, Outside(Pause));
    s' := Reach(s, Dispatch(Begin(0)));
    assert Works(Dispatch(Begin(0)));
  }

  /** The handler of the first attempt is running. */
  lemma FirstHandling(t: Task) returns (s: State)
    requires Plain(t)
    ensures Reachable(s) && s.store.cache == map["a" := t] && s.completed == map[]
    ensures s.places == Places(map[0 := Copy(t, Handling)], 1, {}, {"a"}, {}) && s.dedupe == Dedupe({}, map[])
    ensures !s.paused && s.scan == Idle && s.threads == OneWaiting && s.hist.accepted == {"a"}
  {
    s := Admitted(t);
    s := Fetched(s, 0, t);
    s := Started(s, 0, t);
    hide Reachable;
    s := Reach(s, Execute(CheckCompleted(0)));
  }

  lemma Finished(s: State) returns (s': State)
    requires Reachable(s) && s.places == Places(map[0 := Copy(A, Handling)], 1, {}, {"a"}, {})
    requires s.store.cache == map["a" := A] && s.completed == map[]
    ensures Reachable(s') && s'.places == Places(map[], 1, {}, {}, {}) && s'.completed == map["a" := 0]
    ensures s'.scan == s.scan && s'.threads == s.threads && "a" !in s'.store.cache
    ensures s'.hist.accepted == s.hist.accepted && "a" in s'.hist.finished
  {
    hide Reachable;
    s' := Reach(s, Execute(Succeed(0)));
    s' := Reach(s', Finish(RecordCompleted(0, 0)));
    s' := Reach(s', Finish(Erase(0, 0)));
    s' := Reach(s', Finish(ReleaseHash(0)));
    s' := Reach(s', Finish(Leave(0)));
  }

  /** A snapshot read before a task finishes and admitted after it has re-admits the
      finished task; its execution returns before its guard is built and leaves the id in
      `executing_tasks`. */
  lemma StaleSnapshotGetsStuck() returns (s: State)
    ensures Reachable(s) && "a" in s.hist.finished && "a" !in s.store.cache
    ensures "a" in s.places.stuck && "a" in s.places.executing && s.places.copies == map[]
  {
    s := FirstHandling(A);
    s := Snapshot(s, A);
    s := Finished(s);
    AdmitOnly(s.places, A);
    hide Reachable;
    s := Reach(s, Process(ScanAdmit(0)));
    assert s.places.copies == map[1 := Copy(A, InHeap)];
    s := Fetched(s, 1, A);
    s := Started(s, 1, A);
    s := Reach(s, Execute(CheckCompleted(1)));
    assert s.places.copies == map[];
  }

  lemma OwedFirst(s: State, owed: set<TaskId>, step: Step, rest: seq<Step>) returns (steps: seq<Step>)
    requires Enabled(s, step) && PossibleRun(Next(s, step), rest)
    ensures PossibleRun(s, steps) && Run(s, steps) == Run(Next(s, step), rest)
    ensures Owed(s, owed, steps) == Owed(Next(s, step), OwedNext(s, owed, step), rest)
    ensures NeverErasesOwed(s, owed, steps) ==>
      !ErasesOwed(s, owed, step) && NeverErasesOwed(Next(s, step), OwedNext(s, owed, step), rest)
  {
    steps := [step] + rest;
    assert steps[0] == step && steps[1..] == rest;
  }

  /** The execution has succeeded and its tombstone is not yet written. */
  lemma JustSucceeded() returns (s: State)
    ensures Reachable(s) && s.store.cache == map["a" := A] && s.places.copies == map[0 := Copy(A, Ending(true))]
    ensures s.dedupe == Dedupe({}, map[]) && !s.paused && "a" in s.hist.won
  {
    s := FirstHandling(A);
    hide Reachable;
    s := Reach(s, Execute(Succeed(0)));
  }

  lemma ErasedUnseen(s: State) returns (steps: seq<Step>)
    requires s.store.cache == map["a" := A] && s.places.copies == map[0 := Copy(A, Recorded(true))]
    ensures PossibleRun(s, steps) && "a" in Owed(s, {"a"}, steps) && "a" !in Run(s, steps).store.cache
    ensures !NeverErasesOwed(s, {"a"}, steps)
  {
    var erase := Finish(Erase(0, 0));
    assert "a" !in Next(s, erase).store.cache && ErasesOwed(s, {"a"}, erase);
    steps := OwedFirst(s, {"a"}, erase, []);
  }

  lemma Reaccepted(s: State) returns (s1: State, s2: State)
    requires s.store.cache == map["a" := A] && s.dedupe == Dedupe({}, map[]) && !s.paused
    ensures Enabled(s, Enqueue(EnqueueCheck(0, A))) && s1 == Next(s, Enqueue(EnqueueCheck(0, A)))
    ensures Enabled(s1, Enqueue(EnqueueSave(0))) && s2 == Next(s1, Enqueue(EnqueueSave(0)))
    ensures OwedNext(s1, OwedNext(s, {}, Enqueue(EnqueueCheck(0, A))), Enqueue(EnqueueSave(0))) == {"a"}
    ensures s2.store.cache == map["a" := A] && s2.places == s.places
  {
    s1 := Next(s, Enqueue(EnqueueCheck(0, A)));
    s2 := Next(s1, Enqueue(EnqueueSave(0)));
  }

  lemma ReusedBeforeTombstone(s: State) returns (steps: seq<Step>)
    requires s.store.cache == map["a" := A] && s.places.copies == map[0 := Copy(A, Recorded(true))]
    requires s.dedupe == Dedupe({}, map[]) && !s.paused
    ensures PossibleRun(s, steps) && "a" in Owed(s, {}, steps) && "a" !in Run(s, steps).store.cache
    ensures !NeverErasesOwed(s, {}, steps)
  {
    var s1, s2 := Reaccepted(s);
    hide Next, Enabled, OwedNext, PossibleRun, Owed, NeverErasesOwed, Run;
    steps := ErasedUnseen(s2);
    steps := OwedFirst(s1, OwedNext(s, {}, Enqueue(EnqueueCheck(0, A))), Enqueue(EnqueueSave(0)), steps);
    steps := OwedFirst(s, {}, Enqueue(EnqueueCheck(0, A)), steps);
  }

  /** An enqueue that reuses an id between the outcome of its execution and the tombstone
      is erased unseen: from a reachable state that owes nothing, a run accepts the id
      again, and at its end the id is owed and nowhere in the log. */
  lemma ReusedIdVanishes() returns (s: State, steps: seq<Step>)
    ensures Reachable(s) && PossibleRun(s, steps)
    ensures "a" in Owed(s, {}, steps) && "a" !in Run(s, steps).store.cache && !NeverErasesOwed(s, {}, steps)
  {
    s := JustSucceeded();
    hide Reachable;
    s := Reach(s, Finish(RecordCompleted(0, 0)));
    steps := ReusedBeforeTombstone(s);
  }
}
