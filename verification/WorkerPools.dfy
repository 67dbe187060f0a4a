/** Worker pools: counting semaphores shared by the dispatchers and executions of every
    shard engine in the process (src/queue.rs, WorkerPoolManager and spawn_dispatcher). */
module WorkerPools {
  import opened Tasks

  /** One entry of SNERD_POOLS: a name and a count, or a part that does not parse. */
  datatype Part = Named(name: string, count: nat) | Malformed

  /** The last part that names `name`. */
  function LastCount(parts: seq<Part>, name: string): Option<nat> {
    if parts == [] then None
    else
      var p := parts[|parts| - 1];
      if p.Named? && p.name == name then Some(p.count) else LastCount(parts[..|parts| - 1], name)
  }

  class WorkerPoolManager {
    /** Semaphores by pool name, as their capacities. */
    var pools: map<string, nat>

    /** The configured pools, a repeated name taking its last count, and always a pool
        called "default". */
    constructor (parts: seq<Part>, defaultWorkers: nat)
      ensures "default" in pools
      ensures forall name :: name in pools <==> name == "default" || LastCount(parts, name).Some?
      ensures forall name | name in pools ::
        pools[name] == if LastCount(parts, name).Some? then LastCount(parts, name).value else defaultWorkers
    {
      var built: map<string, nat> := map[];
      for i := 0 to |parts|
        invariant forall name :: name in built <==> LastCount(parts[..i], name).Some?
        invariant forall name | name in built :: LastCount(parts[..i], name) == Some(built[name])
      {
        assert parts[..i + 1][..i] == parts[..i];
        if parts[i].Named? {
          built := built[parts[i].name := parts[i].count];
        }
      }
      assert parts[..|parts|] == parts;
      if "default" !in built {
        built := built["default" := defaultWorkers];
      }
      pools := built;
    }
  }

  // ---- Permits ----

  type Capacity = map<string, nat>

  /** The semaphore a pool's dispatchers use: its own, or the default one when the pool is
      not configured. */
  function SemaphoreOf(cap: Capacity, pool: string): string {
    if pool in cap then pool else "default"
  }

  /** A dispatcher of one engine and pool, waiting for a permit or holding one, or an
      execution, which holds the permit it was spawned with. */
  datatype Thread =
    | Waiting(engine: nat, pool: string)
    | Permitted(engine: nat, pool: string)
    | Executing(engine: nat, pool: string)

  datatype State = State(available: map<string, nat>, threads: map<nat, Thread>)

  datatype Step =
    | Spawn(t: nat, engine: nat, pool: string)
    | Acquire(t: nat)
    | StartExecution(t: nat, u: nat)  // t's permit moves into the new execution u
    | Refuse(t: nat)                  // deferred or duplicate: the permit is dropped
    | Exit(t: nat)                    // nothing to pop: the permit is dropped, the thread ends
    | Finish(u: nat)

  predicate HoldsPermit(cap: Capacity, t: Thread, sem: string) {
    !t.Waiting? && SemaphoreOf(cap, t.pool) == sem
  }

  function Holders(cap: Capacity, threads: map<nat, Thread>, sem: string): set<nat> {
    set t | t in threads && HoldsPermit(cap, threads[t], sem)
  }

  /** Executions of all engines, in pools of all names, that count against `sem`. */
  function Executions(cap: Capacity, s: State, sem: string): set<nat> {
    set t | t in s.threads && s.threads[t].Executing?
            && (s.threads[t].pool == sem || (sem == "default" && s.threads[t].pool !in cap))
  }

  predicate Free(s: State, sem: string) {
    sem in s.available && s.available[sem] > 0
  }

  predicate Enabled(cap: Capacity, s: State, step: Step) {
    match step
    case Spawn(t, _, _) => t !in s.threads
    case Acquire(t) => t in s.threads && s.threads[t].Waiting? && Free(s, SemaphoreOf(cap, s.threads[t].pool))
    case StartExecution(t, u) => t in s.threads && s.threads[t].Permitted? && u !in s.threads
    case Refuse(t) => t in s.threads && s.threads[t].Permitted?
    case Exit(t) => t in s.threads && s.threads[t].Permitted?
    case Finish(u) => u in s.threads && s.threads[u].Executing?
  }

  function Released(cap: Capacity, s: State, pool: string): map<string, nat> {
    var sem := SemaphoreOf(cap, pool);
    s.available[sem := (if sem in s.available then s.available[sem] else 0) + 1]
  }

  function Next(cap: Capacity, s: State, step: Step): State
    requires Enabled(cap, s, step)
  {
    match step
    case Spawn(t, engine, pool) => s.(threads := s.threads[t := Waiting(engine, pool)])
    case Acquire(t) =>
      var d, sem := s.threads[t], SemaphoreOf(cap, s.threads[t].pool);
      State(s.available[sem := s.available[sem] - 1], s.threads[t := Permitted(d.engine, d.pool)])
    case StartExecution(t, u) =>
      var d := s.threads[t];
      s.(threads := s.threads[t := Waiting(d.engine, d.pool)][u := Executing(d.engine, d.pool)])
    case Refuse(t) =>
      var d := s.threads[t];
      State(Released(cap, s, d.pool), s.threads[t := Waiting(d.engine, d.pool)])
    case Exit(t) => State(Released(cap, s, s.threads[t].pool), s.threads - {t})
    case Finish(u) => State(Released(cap, s, s.threads[u].pool), s.threads - {u})
  }

  ghost predicate PossibleRun(cap: Capacity, s: State, steps: seq<Step>)
    decreases |steps|
  {
    steps == [] || (Enabled(cap, s, steps[0]) && PossibleRun(cap, Next(cap, s, steps[0]), steps[1..]))
  }

  function Run(cap: Capacity, s: State, steps: seq<Step>): State
    requires PossibleRun(cap, s, steps)
    decreases |steps|
  {
    if steps == [] then s else Run(cap, Next(cap, s, steps[0]), steps[1..])
  }

  /** Every permit is free or held, by a dispatcher or by an execution. */
  ghost predicate Conserved(cap: Capacity, s: State) {
    && s.available.Keys == cap.Keys
    && forall sem | sem in cap :: s.available[sem] + |Holders(cap, s.threads, sem)| == cap[sem]
  }

  lemma HoldersPut(cap: Capacity, threads: map<nat, Thread>, t: nat, d: Thread, sem: string)
    ensures var before, after := Holders(cap, threads, sem), Holders(cap, threads[t := d], sem);
      && |after| == |before| + (if HoldsPermit(cap, d, sem) then 1 else 0) - (if t in before then 1 else 0)
  {
    var before, after := Holders(cap, threads, sem), Holders(cap, threads[t := d], sem);
    assert after == if HoldsPermit(cap, d, sem) then before + {t} else before - {t};
  }

  lemma HoldersRemove(cap: Capacity, threads: map<nat, Thread>, t: nat, sem: string)
    ensures |Holders(cap, threads - {t}, sem)|
      == |Holders(cap, threads, sem)| - if t in Holders(cap, threads, sem) then 1 else 0
  {
    assert Holders(cap, threads - {t}, sem) == Holders(cap, threads, sem) - {t};
  }

  lemma StepConserves(cap: Capacity, s: State, step: Step)
    requires "default" in cap && Conserved(cap, s) && Enabled(cap, s, step)
    ensures Conserved(cap, Next(cap, s, step))
  {
    var s' := Next(cap, s, step);
    forall sem | sem in cap ensures s'.available[sem] + |Holders(cap, s'.threads, sem)| == cap[sem] {
      match step
      case Spawn(t, engine, pool) => HoldersPut(cap, s.threads, t, Waiting(engine, pool), sem);
      case Acquire(t) => HoldersPut(cap, s.threads, t, s'.threads[t], sem);
      case StartExecution(t, u) =>
        HoldersPut(cap, s.threads, t, s'.threads[t], sem);
        HoldersPut(cap, s.threads[t := s'.threads[t]], u, s'.threads[u], sem);
      case Refuse(t) => HoldersPut(cap, s.threads, t, s'.threads[t], sem);
      case Exit(t) => HoldersRemove(cap, s.threads, t, sem);
      case Finish(u) => HoldersRemove(cap, s.threads, u, sem);
    }
  }

  lemma {:induction false} RunConserves(cap: Capacity, s: State, steps: seq<Step>)
    requires "default" in cap && Conserved(cap, s) && PossibleRun(cap, s, steps)
    ensures Conserved(cap, Run(cap, s, steps))
    decreases |steps|
  {
    if steps != [] {
      StepConserves(cap, s, steps[0]);
      RunConserves(cap, Next(cap, s, steps[0]), steps[1..]);
    }
  }

  /** In every run, permits are conserved and the executions of all engines, unknown pools
      counted with the default one, never exceed a semaphore's capacity. */
  lemma ExecutionsWithinCapacity(cap: Capacity, steps: seq<Step>, sem: string)
    requires "default" in cap && sem in cap && PossibleRun(cap, State(cap, map[]), steps)
    ensures var s := Run(cap, State(cap, map[]), steps);
      && sem in s.available && s.available[sem] + |Holders(cap, s.threads, sem)| == cap[sem]
      && |Executions(cap, s, sem)| <= cap[sem]
  {
    var s0 := State(cap, map[]);
    assert forall k :: Holders(cap, s0.threads, k) == {};
    RunConserves(cap, s0, steps);
    var s := Run(cap, s0, steps);
    SubsetCount(Executions(cap, s, sem), Holders(cap, s.threads, sem));
  }

  lemma {:induction false} SubsetCount(a: set<nat>, b: set<nat>)
    requires a <= b
    ensures |a| <= |b|
    decreases a
  {
    if a != {} {
      var x :| x in a;
      SubsetCount(a - {x}, b - {x});
    }
  }
}
