/** Booting on a queue directory: detection, adoption of a legacy log, initialization, by
    any number of racing processes that may die between any two file operations; and the
    routing of task ids to shards (src/sharding.rs). */
module Adoption {
  import opened Tasks
  import opened Log

  // ---- Routing ----

  const FNV_OFFSET: bv64 := 0xcbf29ce484222325
  const FNV_PRIME: bv64 := 0x100000001b3

  /** One round; the product wraps at 64 bits. */
  function Mix(hash: bv64, b: bv8): bv64 {
    (hash ^ (b as bv64)) * FNV_PRIME
  }

  function Fnv1a(data: seq<bv8>): bv64 {
    if data == [] then FNV_OFFSET else Mix(Fnv1a(data[..|data| - 1]), data[|data| - 1])
  }

  /** The published test vectors of 64-bit FNV-1a for "", "a" and "ab". */
  lemma Vectors()
    ensures Fnv1a([]) == 0xcbf29ce484222325
    ensures Fnv1a([0x61]) == 0xaf63dc4c8601ec8c
    ensures Fnv1a([0x61, 0x62]) == 0x089c4407b545986a
  {
    assert [0x61][..0] == [];
    assert [0x61, 0x62][..1] == [0x61];
  }

  method HashBytes(data: seq<bv8>) returns (hash: bv64)
    ensures hash == Fnv1a(data)
  {
    hide Mix;
    hash := FNV_OFFSET;
    for i := 0 to |data|
      invariant hash == Fnv1a(data[..i])
    {
      assert data[..i + 1][..i] == data[..i];
      hash := Mix(hash, data[i]);
    }
    assert data[..|data|] == data;
  }

  /** The program panics on an empty list; callers reject the task first. */
  method RouteShard(id: seq<bv8>, owned: seq<string>) returns (shard: string)
    requires owned != []
    ensures shard in owned && shard == owned[(Fnv1a(id) as int) % |owned|]
  {
    var hash := HashBytes(id);
    shard := owned[(hash as int) % |owned|];
  }

  // ---- Booting ----

  /** The files a boot looks at. `temp` is the half of the atomic membership write. */
  datatype Disk = Disk(
    legacyLog: Option<seq<Line>>,
    shard0Log: Option<seq<Line>>,
    legacyLock: bool,
    temp: Option<nat>,
    membership: Option<nat>)

  datatype Stage =
    | Starting
    | NoMembership                 // membership.json was absent when looked for
    | SawSharded
    | SawLegacy
    | SawFresh
    | Rechecking(legacy: bool)     // holds the lock
    | Probing
    | MovingLog
    | MovingLock
    | Writing(shards: nat)
    | Renaming(shards: nat)
    | Done(shards: nat)
    | Failed
    | Dead

  datatype Booter = Booter(requested: nat, stage: Stage)

  datatype State = State(disk: Disk, locked: Option<nat>, booters: map<nat, Booter>)

  predicate InLock(t: Stage) {
    t.Rechecking? || t.Probing? || t.MovingLog? || t.MovingLock? || t.Writing? || t.Renaming?
  }

  predicate Over(t: Stage) {
    t.Done? || t.Failed? || t.Dead?
  }

  /** One booter moves: on through the code, or it dies. `busy` is what the probe of the
      legacy lock finds. */
  datatype Step = Go(b: nat, busy: bool) | Die(b: nat)

  predicate WaitsForLock(t: Stage) {
    t.SawSharded? || t.SawLegacy? || t.SawFresh?
  }

  ghost predicate Enabled(s: State, step: Step) {
    && step.b in s.booters && !Over(s.booters[step.b].stage)
    && (step.Go? && WaitsForLock(s.booters[step.b].stage) ==> s.locked.None?)
  }

  function Put(s: State, b: nat, t: Stage): State {
    s.(booters := s.booters[b := Booter(if b in s.booters then s.booters[b].requested else 0, t)])
  }

  /** Leave the critical section. */
  function Exit(s: State, b: nat, t: Stage): State {
    Put(s, b, t).(locked := None)
  }

  function Next(s: State, step: Step): State
    requires Enabled(s, step)
  {
    var b, d, t := step.b, s.disk, s.booters[step.b].stage;
    if step.Die? then
      if InLock(t) then Exit(s, b, Dead) else Put(s, b, Dead)
    else
      match t
      case Starting => Put(s, b, if d.membership.Some? then SawSharded else NoMembership)
      case NoMembership => Put(s, b, if d.legacyLog.Some? then SawLegacy else SawFresh)
      case SawSharded => Put(s, b, if d.membership.Some? then Done(d.membership.value) else Failed)
      case SawLegacy => Put(s, b, Rechecking(true)).(locked := Some(b))
      case SawFresh => Put(s, b, Rechecking(false)).(locked := Some(b))
      case Rechecking(legacy) =>
        if d.membership.Some? then Exit(s, b, Done(d.membership.value))
        else Put(s, b, if legacy then Probing else Writing(s.booters[b].requested))
      case Probing => if d.legacyLock && step.busy then Exit(s, b, Failed) else Put(s, b, MovingLog)
      case MovingLog =>
        // A rename replaces whatever is at the target, and fails without a source.
        if d.legacyLog.None? then Exit(s, b, Failed)
        else Put(s, b, MovingLock).(disk := d.(legacyLog := None, shard0Log := d.legacyLog))
      case MovingLock => Put(s, b, Writing(1)).(disk := d.(legacyLock := false))
      case Writing(n) =>
        if d.membership.Some? then Exit(s, b, Failed) else Put(s, b, Renaming(n)).(disk := d.(temp := Some(n)))
      case Renaming(n) => Exit(s, b, Done(n)).(disk := d.(temp := None, membership := d.temp))
      case _ => s
  }

  ghost predicate PossibleRun(s: State, steps: seq<Step>)
    decreases |steps|
  {
    steps == [] || (Enabled(s, steps[0]) && PossibleRun(Next(s, steps[0]), steps[1..]))
  }

  function Run(s: State, steps: seq<Step>): State
    requires PossibleRun(s, steps)
    decreases |steps|
  {
    if steps == [] then s else Run(Next(s, steps[0]), steps[1..])
  }

  /** A directory from before sharding, or an empty one, and booters about to start. */
  ghost predicate IsInitial(s: State, legacy: Option<seq<Line>>) {
    && s.disk == Disk(legacy, None, s.disk.legacyLock, s.disk.temp, None) && s.locked.None?
    && forall b | b in s.booters :: s.booters[b].stage.Starting?
  }

  /** The legacy tasks are at exactly one of the two paths. */
  ghost predicate AtOnePath(d: Disk, legacy: Option<seq<Line>>) {
    || (d.legacyLog == legacy && d.shard0Log == None)
    || (d.legacyLog == None && d.shard0Log == legacy)
  }

  ghost predicate StageSound(s: State, b: nat)
    requires b in s.booters
  {
    var d, t := s.disk, s.booters[b].stage;
    && (InLock(t) <==> s.locked == Some(b))
    && (t.SawSharded? ==> d.membership.Some?)
    && (t.SawFresh? || t == Rechecking(false) || t.MovingLock? || t.Writing? || t.Renaming? ==> d.legacyLog.None?)
    && (InLock(t) && !t.Rechecking? ==> d.membership.None?)
    && (t.Renaming? ==> d.temp == Some(t.shards))
    && (t.Writing? || t.Renaming? ==> t.shards == 1 || t.shards == s.booters[b].requested)
    && (t.Done? ==> d.membership == Some(t.shards))
  }

  ghost predicate Sound(s: State, legacy: Option<seq<Line>>) {
    && AtOnePath(s.disk, legacy)
    && (s.disk.membership.Some? ==> s.disk.legacyLog.None?)
    && (s.locked.Some? ==> s.locked.value in s.booters)
    && (forall b | b in s.booters :: StageSound(s, b))
  }

  lemma OthersSound(s: State, step: Step, b: nat)
    requires Enabled(s, step) && b in s.booters && b != step.b && StageSound(s, b) && StageSound(s, step.b)
    requires s.disk.membership.Some? ==> s.disk.legacyLog.None?
    ensures StageSound(Next(s, step), b)
  {}

  lemma ActorSound(s: State, step: Step)
    requires Enabled(s, step) && StageSound(s, step.b)
    requires s.disk.membership.Some? ==> s.disk.legacyLog.None?
    ensures StageSound(Next(s, step), step.b)
  {}

  lemma StepSound(s: State, step: Step, legacy: Option<seq<Line>>)
    requires Sound(s, legacy) && Enabled(s, step)
    ensures Sound(Next(s, step), legacy)
    ensures s.disk.membership.Some? ==> Next(s, step).disk.membership == s.disk.membership
  {
    var s' := Next(s, step);
    assert StageSound(s, step.b);
    assert s'.booters.Keys == s.booters.Keys;
    DiskSound(s, step, legacy);
    hide Next, StageSound;
    forall b | b in s'.booters ensures StageSound(s', b) {
      if b == step.b { ActorSound(s, step); } else { OthersSound(s, step, b); }
    }
  }

  lemma DiskSound(s: State, step: Step, legacy: Option<seq<Line>>)
    requires Enabled(s, step) && StageSound(s, step.b) && AtOnePath(s.disk, legacy)
    requires s.disk.membership.Some? ==> s.disk.legacyLog.None?
    ensures var s' := Next(s, step);
      && AtOnePath(s'.disk, legacy) && (s'.disk.membership.Some? ==> s'.disk.legacyLog.None?)
      && (s'.locked.Some? ==> s'.locked == s.locked || s'.locked == Some(step.b))
      && (s.disk.membership.Some? ==> s'.disk.membership == s.disk.membership)
  {}

  /** Covering shard-0 needs only that nobody asks for zero shards. */
  ghost predicate CoversShard0(s: State) {
    && (forall b | b in s.booters :: s.booters[b].requested >= 1)
    && (s.disk.membership.Some? ==> s.disk.membership.value >= 1)
  }

  lemma StepCovers(s: State, step: Step, legacy: Option<seq<Line>>)
    requires Sound(s, legacy) && CoversShard0(s) && Enabled(s, step)
    ensures CoversShard0(Next(s, step))
  {
    assert StageSound(s, step.b);
  }

  lemma {:induction false} RunSound(s: State, steps: seq<Step>, legacy: Option<seq<Line>>)
    requires Sound(s, legacy) && PossibleRun(s, steps)
    ensures Sound(Run(s, steps), legacy)
    ensures s.disk.membership.Some? ==> Run(s, steps).disk.membership == s.disk.membership
    ensures CoversShard0(s) ==> CoversShard0(Run(s, steps))
    decreases |steps|
  {
    if steps != [] {
      StepSound(s, steps[0], legacy);
      if CoversShard0(s) { StepCovers(s, steps[0], legacy); }
      RunSound(Next(s, steps[0]), steps[1..], legacy);
    }
  }

  /** In every race of booters, deaths included: the legacy tasks are at exactly one of the
      old and the `shard-0` path, and in `shard-0` once membership exists; all successful
      booters return the same count, the one membership holds; and if all ask for at least
      one shard, membership covers `shard-0`. */
  lemma AdoptionSafe(s0: State, steps: seq<Step>, legacy: Option<seq<Line>>)
    requires IsInitial(s0, legacy) && PossibleRun(s0, steps)
    ensures var s := Run(s0, steps);
      && AtOnePath(s.disk, legacy)
      && (s.disk.membership.Some? ==> s.disk.legacyLog.None? && s.disk.shard0Log == legacy)
      && (forall b | b in s.booters && s.booters[b].stage.Done? :: s.disk.membership == Some(s.booters[b].stage.shards))
      && (forall b, c | b in s.booters && c in s.booters && s.booters[b].stage.Done? && s.booters[c].stage.Done? ::
            s.booters[b].stage.shards == s.booters[c].stage.shards)
      && ((forall b | b in s0.booters :: s0.booters[b].requested >= 1) && s.disk.membership.Some? ==>
            s.disk.membership.value >= 1)
  {
    RunSound(s0, steps, legacy);
    var s := Run(s0, steps);
    forall b | b in s.booters && s.booters[b].stage.Done? ensures s.disk.membership == Some(s.booters[b].stage.shards) {
      assert StageSound(s, b);
    }
  }

  /** A count to be written, or written, is 1 for an adopted legacy log, or was asked for. */
  ghost predicate CountFounded(s: State, n: nat, legacy: Option<seq<Line>>) {
    (n == 1 && legacy.Some?) || exists b :: b in s.booters && s.booters[b].requested == n
  }

  ghost predicate StageFounded(s: State, b: nat, legacy: Option<seq<Line>>)
    requires b in s.booters
  {
    var t := s.booters[b].stage;
    && (t.SawLegacy? || t == Rechecking(true) || t.Probing? || t.MovingLog? || t.MovingLock? ==> legacy.Some?)
    && (t.Writing? || t.Renaming? ==> (t.shards == 1 && legacy.Some?) || t.shards == s.booters[b].requested)
  }

  ghost predicate Founded(s: State, legacy: Option<seq<Line>>) {
    && (forall b | b in s.booters :: StageFounded(s, b, legacy))
    && (s.disk.membership.Some? ==> CountFounded(s, s.disk.membership.value, legacy))
  }

  lemma OthersStay(s: State, step: Step)
    requires Enabled(s, step)
    ensures var s' := Next(s, step);
      && s'.booters.Keys == s.booters.Keys
      && (forall b | b in s.booters && b != step.b :: s'.booters[b] == s.booters[b])
      && s'.booters[step.b].requested == s.booters[step.b].requested
  {}

  lemma ActorFounded(s: State, step: Step, legacy: Option<seq<Line>>)
    requires Enabled(s, step) && StageFounded(s, step.b, legacy) && AtOnePath(s.disk, legacy)
    ensures step.b in Next(s, step).booters && StageFounded(Next(s, step), step.b, legacy)
  {}

  lemma DiskFounded(s: State, step: Step, legacy: Option<seq<Line>>)
    requires Enabled(s, step) && StageSound(s, step.b) && StageFounded(s, step.b, legacy)
    ensures var m, m' := s.disk.membership, Next(s, step).disk.membership;
      m' == m || (m'.Some? && ((m'.value == 1 && legacy.Some?) || m'.value == s.booters[step.b].requested))
  {}

  lemma StepFounded(s: State, step: Step, legacy: Option<seq<Line>>)
    requires Sound(s, legacy) && Founded(s, legacy) && Enabled(s, step)
    ensures Founded(Next(s, step), legacy)
  {
    var s' := Next(s, step);
    assert StageSound(s, step.b) && StageFounded(s, step.b, legacy);
    OthersStay(s, step);
    ActorFounded(s, step, legacy);
    DiskFounded(s, step, legacy);
    hide Next, Sound, StageSound;
    forall b | b in s'.booters ensures StageFounded(s', b, legacy) {
      if b != step.b { assert StageFounded(s, b, legacy); }
    }
    if s'.disk.membership.Some? {
      var n := s'.disk.membership.value;
      if s'.disk.membership == s.disk.membership {
        assert CountFounded(s, n, legacy);
      }
    }
  }

  lemma {:induction false} RunFounded(s: State, steps: seq<Step>, legacy: Option<seq<Line>>)
    requires Sound(s, legacy) && Founded(s, legacy) && PossibleRun(s, steps)
    ensures Founded(Run(s, steps), legacy)
    decreases |steps|
  {
    hide Sound, Founded;
    if steps != [] {
      StepSound(s, steps[0], legacy);
      StepFounded(s, steps[0], legacy);
      RunFounded(Next(s, steps[0]), steps[1..], legacy);
    }
  }

  /** In every race the count in membership is one that some booter asked for, or 1 when a
      legacy log was there to adopt. */
  lemma CountIsFounded(s0: State, steps: seq<Step>, legacy: Option<seq<Line>>)
    requires IsInitial(s0, legacy) && PossibleRun(s0, steps) && Run(s0, steps).disk.membership.Some?
    ensures var s, n := Run(s0, steps), Run(s0, steps).disk.membership.value;
      (n == 1 && legacy.Some?) || exists b :: b in s.booters && s.booters[b].requested == n
  {
    RunFounded(s0, steps, legacy);
  }

  /** Membership is created at most once: from any point of a run on, an existing one is
      never replaced. */
  lemma MembershipOnce(s0: State, before: seq<Step>, after: seq<Step>, legacy: Option<seq<Line>>)
    requires IsInitial(s0, legacy) && PossibleRun(s0, before) && PossibleRun(Run(s0, before), after)
    requires Run(s0, before).disk.membership.Some?
    ensures Run(Run(s0, before), after).disk.membership == Run(s0, before).disk.membership
  {
    RunSound(s0, before, legacy);
    RunSound(Run(s0, before), after, legacy);
  }

  // ---- A boot that nobody disturbs ----

  datatype BootResult = Serving(shards: nat) | Refused

  class QueueDirectory {
    var disk: Disk

    constructor (disk: Disk)
      ensures this.disk == disk
    {
      this.disk := disk;
    }

    /** Moves the legacy files into `shard-0`; refused while a legacy daemon holds its lock. */
    method MigrateLegacy(busy: bool) returns (ok: bool)
      modifies this
      ensures ok == (old(disk).legacyLog.Some? && !(old(disk).legacyLock && busy))
      ensures disk == if ok then old(disk).(legacyLog := None, shard0Log := old(disk).legacyLog, legacyLock := false)
                      else old(disk)
    {
      if disk.legacyLock && busy {
        return false;
      }
      if disk.legacyLog.None? {
        return false;
      }
      disk := disk.(legacyLog := None, shard0Log := disk.legacyLog);
      disk := disk.(legacyLock := false);
      ok := true;
    }

    /** Temp file, then rename. */
    method InitMembership(shards: nat) returns (ok: bool)
      modifies this
      ensures ok == old(disk).membership.None?
      ensures disk == if ok then old(disk).(temp := None, membership := Some(shards)) else old(disk)
    {
      if disk.membership.Some? {
        return false;
      }
      disk := disk.(temp := Some(shards));
      disk := disk.(membership := disk.temp, temp := None);
      ok := true;
    }

    /** Membership is authoritative where it exists; a legacy log makes a one-shard queue;
        an empty directory gets the shards asked for. */
    method ResolveLayout(requested: nat, busy: bool) returns (r: BootResult)
      modifies this
      ensures r == if old(disk).membership.Some? then Serving(old(disk).membership.value)
                   else if old(disk).legacyLog.None? then Serving(requested)
                   else if old(disk).legacyLock && busy then Refused
                   else Serving(1)
      ensures old(disk).membership.Some? || r.Refused? ==> disk == old(disk)
      ensures r.Serving? ==> disk.membership == Some(r.shards)
      ensures r.Serving? && old(disk).membership.None? && old(disk).legacyLog.Some? ==>
        disk.legacyLog == None && disk.shard0Log == old(disk).legacyLog
      ensures r.Serving? && old(disk).membership.None? && old(disk).legacyLog.None? ==>
        disk.legacyLog == old(disk).legacyLog && disk.shard0Log == old(disk).shard0Log
    {
      if disk.membership.Some? {
        return Serving(disk.membership.value);
      }
      if disk.legacyLog.Some? {
        var migrated := MigrateLegacy(busy);
        if !migrated {
          return Refused;
        }
        var initialized := InitMembership(1);
        return Serving(1);
      }
      var initialized := InitMembership(requested);
      r := Serving(disk.membership.value);
    }
  }
}
