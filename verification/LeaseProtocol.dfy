/** Many daemons sharing one membership file and one file lock per shard
    (src/main.rs, src/membership.rs, src/sharding.rs).

    A daemon reads its clock in one step and changes the file in a later one, so every
    clock reading may be stale when it is used. */
module LeaseProtocol {
  import opened Tasks
  import opened Membership

  type Process = string

  /** Who holds a shard's lock file: a daemon's engine, or a `replay` command. */
  datatype Holder = Engine(owner: Owner) | Replayer(process: Process)

  /** Where `acquire_shards` has got to. `flocks` are the locks it has taken so far. */
  datatype Acquiring =
    | Resting
    | Loading(now: Time)
    | Choosing(todo: seq<Shard>, flocks: set<Shard>)
    | Claiming(shard: Shard, now: Time, todo: seq<Shard>, flocks: set<Shard>)
    | Locking(shard: Shard, todo: seq<Shard>, flocks: set<Shard>)
    | Reverting(shard: Shard, todo: seq<Shard>, flocks: set<Shard>)

  datatype Beat = Quiet | Renewing(shard: Shard, now: Time)

  /** `lease` is bookkeeping: the expiry this daemon last wrote for each shard it is
      entitled to think it owns. */
  datatype Daemon = Daemon(
    up: bool,
    clock: Time,
    acquiring: Acquiring,
    engines: set<Shard>,
    paused: set<Shard>,
    beat: Beat,
    stopping: bool,
    lease: map<Shard, Time>)

  datatype State = State(members: Members, flocks: map<Shard, Holder>, daemons: map<Owner, Daemon>)

  /** Fixed for a run: the skew margin and how many shards one daemon takes. */
  datatype Config = Config(skew: nat, maxShards: nat)

  datatype Step =
    | Tick(clocks: map<Owner, Time>)
    | Boot(o: Owner)
    | ReadClock(o: Owner)
    | Load(o: Owner)
    | ReadClaimClock(o: Owner)
    | WriteClaim(o: Owner)
    | TryLock(o: Owner)
    | RevertClaim(o: Owner)
    | StartEngines(o: Owner)
    | BeatRead(o: Owner, shard: Shard)
    | BeatRenew(o: Owner)
    | Stop(o: Owner)
    | ReleaseShard(o: Owner, shard: Shard)
    | Crash(o: Owner)
    | ReplayLock(process: Process, shard: Shard)
    | ReplayUnlock(process: Process, shard: Shard)
    | AddShards(n: nat)

  function FlocksOf(a: Acquiring): set<Shard> {
    if a.Resting? || a.Loading? then {} else a.flocks
  }

  ghost predicate IsUp(s: State, o: Owner) {
    o in s.daemons && s.daemons[o].up
  }

  ghost predicate Enabled(c: Config, s: State, step: Step) {
    match step
    case Tick(clocks) => clocks.Keys == s.daemons.Keys && forall o | o in clocks :: s.daemons[o].clock <= clocks[o]
    case Boot(o) => o in s.daemons && !s.daemons[o].up
    case ReadClock(o) =>
      IsUp(s, o) && s.daemons[o].acquiring.Resting? && s.daemons[o].engines == {} && !s.daemons[o].stopping
    case Load(o) => IsUp(s, o) && s.daemons[o].acquiring.Loading?
    case ReadClaimClock(o) =>
      && IsUp(s, o) && s.daemons[o].acquiring.Choosing?
      && s.daemons[o].acquiring.todo != [] && |s.daemons[o].acquiring.flocks| < c.maxShards
    case WriteClaim(o) => IsUp(s, o) && s.daemons[o].acquiring.Claiming?
    case TryLock(o) => IsUp(s, o) && s.daemons[o].acquiring.Locking?
    case RevertClaim(o) => IsUp(s, o) && s.daemons[o].acquiring.Reverting?
    case StartEngines(o) =>
      && IsUp(s, o) && s.daemons[o].acquiring.Choosing?
      && (s.daemons[o].acquiring.todo == [] || |s.daemons[o].acquiring.flocks| >= c.maxShards)
    case BeatRead(o, k) =>
      && IsUp(s, o) && s.daemons[o].beat.Quiet? && !s.daemons[o].stopping
      && k in s.daemons[o].engines && k !in s.daemons[o].paused
    case BeatRenew(o) => IsUp(s, o) && s.daemons[o].beat.Renewing?
    case Stop(o) => IsUp(s, o) && !s.daemons[o].stopping
    case ReleaseShard(o, k) => IsUp(s, o) && s.daemons[o].stopping && k in s.daemons[o].engines
    case Crash(o) => IsUp(s, o)
    case ReplayLock(p, k) => IsShard(s.members, k) && k !in s.flocks
    case ReplayUnlock(p, k) => k in s.flocks && s.flocks[k] == Replayer(p)
    case AddShards(n) => n < U32
  }

  function Set(s: State, o: Owner, d: Daemon): State {
    s.(daemons := s.daemons[o := d])
  }

  function Down(clock: Time): Daemon {
    Daemon(false, clock, Resting, {}, {}, Quiet, false, map[])
  }

  ghost function Next(c: Config, s: State, step: Step): State
    requires Enabled(c, s, step)
  {
    match step
    case Tick(clocks) => s.(daemons := map o | o in s.daemons :: s.daemons[o].(clock := clocks[o]))
    case Boot(o) => Set(s, o, Down(s.daemons[o].clock).(up := true))
    case ReadClock(o) => Set(s, o, s.daemons[o].(acquiring := Loading(s.daemons[o].clock)))
    case Load(o) =>
      var d := s.daemons[o];
      Set(s, o, d.(acquiring := Choosing(Claimable(s.members, d.acquiring.now, c.skew, o), {})))
    case ReadClaimClock(o) =>
      var d, a := s.daemons[o], s.daemons[o].acquiring;
      Set(s, o, d.(acquiring := Claiming(a.todo[0], d.clock, a.todo[1..], a.flocks)))
    case WriteClaim(o) =>
      var d, a := s.daemons[o], s.daemons[o].acquiring;
      if ClaimOn(s.members, a.shard, o, a.now, c.skew).Ok? then
        Set(s, o, d.(acquiring := Locking(a.shard, a.todo, a.flocks), lease := d.lease[a.shard := a.now + LEASE])).(
          members := Granted(s.members, a.shard, o, a.now))
      else
        // The error ends the whole acquisition; the locks taken so far are dropped with it.
        Set(s, o, d.(acquiring := Resting, lease := d.lease - a.flocks)).(flocks := s.flocks - a.flocks)
    case TryLock(o) =>
      var d, a := s.daemons[o], s.daemons[o].acquiring;
      if a.shard !in s.flocks then
        Set(s, o, d.(acquiring := Choosing(a.todo, a.flocks + {a.shard}))).(flocks := s.flocks[a.shard := Engine(o)])
      else Set(s, o, d.(acquiring := Reverting(a.shard, a.todo, a.flocks)))
    case RevertClaim(o) =>
      var d, a := s.daemons[o], s.daemons[o].acquiring;
      Set(s, o, d.(acquiring := Choosing(a.todo, a.flocks), lease := d.lease - {a.shard})).(
        members := Apply(s.members, Revert(a.shard, o), c.skew))
    case StartEngines(o) =>
      var d := s.daemons[o];
      Set(s, o, d.(acquiring := Resting, engines := d.engines + d.acquiring.flocks))
    case BeatRead(o, k) => Set(s, o, s.daemons[o].(beat := Renewing(k, s.daemons[o].clock)))
    case BeatRenew(o) =>
      var d, b := s.daemons[o], s.daemons[o].beat;
      if Owns(s.members, b.shard, o) then
        Set(s, o, d.(beat := Quiet, lease := d.lease[b.shard := b.now + LEASE])).(
          members := Granted(s.members, b.shard, o, b.now))
      else
        Set(s, o, d.(beat := Quiet, paused := d.paused + {b.shard}, lease := d.lease - {b.shard}))
    case Stop(o) => Set(s, o, s.daemons[o].(stopping := true, paused := s.daemons[o].engines))
    case ReleaseShard(o, k) =>
      Set(s, o, s.daemons[o].(lease := s.daemons[o].lease - {k})).(
        members := Apply(s.members, Release(k, o), c.skew))
    case Crash(o) =>
      var d := s.daemons[o];
      Set(s, o, Down(d.clock)).(flocks := s.flocks - (d.engines + FlocksOf(d.acquiring)))
    case ReplayLock(p, k) => s.(flocks := s.flocks[k := Replayer(p)])
    case ReplayUnlock(p, k) => s.(flocks := s.flocks - {k})
    case AddShards(n) => s.(members := Grown(s.members, n))
  }

  /** A directory just initialized, every daemon down. */
  ghost predicate IsInitial(s: State) {
    && s.members.claims == map[] && s.flocks == map[]
    && forall o | o in s.daemons :: s.daemons[o] == Down(s.daemons[o].clock)
  }

  ghost predicate PossibleRun(c: Config, s: State, steps: seq<Step>)
    decreases |steps|
  {
    steps == [] || (Enabled(c, s, steps[0]) && PossibleRun(c, Next(c, s, steps[0]), steps[1..]))
  }

  ghost function Run(c: Config, s: State, steps: seq<Step>): State
    requires PossibleRun(c, s, steps)
    decreases |steps|
  {
    if steps == [] then s else Run(c, Next(c, s, steps[0]), steps[1..])
  }

  // ---- In all runs: locks exclude ----

  /** A daemon holds the lock of every shard it runs or is about to run; one that is down
      holds none. */
  ghost predicate DaemonLocks(flocks: map<Shard, Holder>, o: Owner, d: Daemon) {
    && (!d.up ==> d.engines == {} && d.acquiring.Resting? && d.lease == map[])
    && (!d.acquiring.Resting? ==> d.engines == {})
    && (forall k | k in d.engines || k in FlocksOf(d.acquiring) :: k in flocks && flocks[k] == Engine(o))
  }

  ghost predicate LocksAt(s: State, o: Owner) {
    o in s.daemons && DaemonLocks(s.flocks, o, s.daemons[o])
  }

  ghost predicate LocksHeld(s: State) {
    forall o | o in s.daemons :: DaemonLocks(s.flocks, o, s.daemons[o])
  }

  /** Every claim, and every shard a daemon is working through, is a shard of the queue. */
  ghost predicate OnlyShards(s: State) {
    && s.members.shards < U32
    && (forall k | k in s.members.claims :: IsShard(s.members, k))
    && (forall o | o in s.daemons :: DaemonKeeps(s.members, s.daemons[o]))
  }

  ghost predicate ShardsOnly(m: Members, a: Acquiring) {
    && (a.Choosing? || a.Claiming? || a.Locking? || a.Reverting? ==>
          (forall k | k in a.todo :: IsShard(m, k)) && (forall k | k in a.flocks :: IsShard(m, k)))
    && (a.Claiming? || a.Locking? || a.Reverting? ==> IsShard(m, a.shard))
  }

  lemma InitialSound(s: State)
    requires IsInitial(s) && s.members.shards < U32
    ensures LocksHeld(s) && OnlyShards(s)
  {}

  lemma SameDaemons(c: Config, s: State, step: Step)
    requires Enabled(c, s, step)
    ensures Next(c, s, step).daemons.Keys == s.daemons.Keys
  {
    hide IsShard, Claimable, ClaimOn, Apply, Granted, Grown, Owns;
  }

  lemma StepLocks(c: Config, s: State, step: Step)
    requires LocksHeld(s) && Enabled(c, s, step)
    ensures LocksHeld(Next(c, s, step))
  {
    SameDaemons(c, s, step);
    hide Next, Enabled;
    forall o | o in s.daemons ensures LocksAt(Next(c, s, step), o) {
      StepDaemonLocks(c, s, step, o);
    }
  }

  predicate Acts(step: Step, o: Owner) {
    !step.Tick? && !step.ReplayLock? && !step.ReplayUnlock? && !step.AddShards? && step.o == o
  }

  /** What the steps of others leave alone: the daemon, but for its clock, and its locks. */
  lemma DaemonStays(c: Config, s: State, step: Step, o: Owner)
    requires Enabled(c, s, step) && o in s.daemons && !Acts(step, o)
    ensures var d, d' := s.daemons[o], Next(c, s, step).daemons[o]; d' == d.(clock := d'.clock) && d.clock <= d'.clock
  {
    hide Claimable, ClaimOn, IsShard, Apply, Granted, Grown, Owns;
  }

  lemma LockStays(c: Config, s: State, step: Step, o: Owner, k: Shard)
    requires LocksHeld(s) && Enabled(c, s, step) && !Acts(step, o) && k in s.flocks && s.flocks[k] == Engine(o)
    ensures var s' := Next(c, s, step); k in s'.flocks && s'.flocks[k] == Engine(o)
  {
    hide Claimable, ClaimOn, IsShard, Apply, Granted, Grown, Owns, LocksHeld;
    if step.Crash? || step.WriteClaim? {
      LocksOf(s, step.o);
    }
  }

  lemma LocksOf(s: State, o: Owner)
    requires LocksHeld(s) && o in s.daemons
    ensures DaemonLocks(s.flocks, o, s.daemons[o])
  {}

  lemma ActingDaemonLocks(c: Config, s: State, step: Step, o: Owner)
    requires o in s.daemons && DaemonLocks(s.flocks, o, s.daemons[o]) && Enabled(c, s, step) && Acts(step, o)
    ensures DaemonLocks(Next(c, s, step).flocks, o, Next(c, s, step).daemons[o])
  {
    if step.WriteClaim? || step.TryLock? || step.Crash? || step.StartEngines? {
      LocksChange(c, s, step, o);
    } else {
      hide DaemonLocks, Claimable, ClaimOn, IsShard, Apply, Granted, Grown, Owns;
      LocksFrame(s.flocks, o, s.daemons[o], Next(c, s, step).daemons[o]);
    }
  }

  /** A daemon that keeps its engines and locks holds them as before. */
  lemma LocksFrame(flocks: map<Shard, Holder>, o: Owner, d: Daemon, d': Daemon)
    requires DaemonLocks(flocks, o, d) && d'.engines <= d.engines && FlocksOf(d'.acquiring) <= FlocksOf(d.acquiring)
    requires d'.up && (!d'.acquiring.Resting? ==> !d.acquiring.Resting? || d'.engines == {})
    ensures DaemonLocks(flocks, o, d')
  {}

  lemma LocksChange(c: Config, s: State, step: Step, o: Owner)
    requires o in s.daemons && DaemonLocks(s.flocks, o, s.daemons[o]) && Enabled(c, s, step) && Acts(step, o)
    requires step.WriteClaim? || step.TryLock? || step.Crash? || step.StartEngines?
    ensures DaemonLocks(Next(c, s, step).flocks, o, Next(c, s, step).daemons[o])
  {
    hide Claimable, ClaimOn, IsShard, Apply, Granted, Grown, Owns;
  }

  lemma StepDaemonLocks(c: Config, s: State, step: Step, o: Owner)
    requires LocksHeld(s) && Enabled(c, s, step) && o in s.daemons
    ensures LocksAt(Next(c, s, step), o)
  {
    LocksOf(s, o);
    hide Next, Enabled, LocksHeld;
    if Acts(step, o) {
      ActingDaemonLocks(c, s, step, o);
    } else {
      DaemonStays(c, s, step, o);
      forall k | k in s.flocks && s.flocks[k] == Engine(o)
        ensures k in Next(c, s, step).flocks && Next(c, s, step).flocks[k] == Engine(o)
      {
        LockStays(c, s, step, o, k);
      }
    }
  }

  lemma ClaimableAreShards(m: Members, now: Time, skew: int, o: Owner)
    ensures forall k | k in Claimable(m, now, skew, o) :: IsShard(m, k)
  {
    ClaimableExact(m, m.shards, now, skew, o);
  }

  lemma ShardsStay(m: Members, m': Members)
    requires m.shards <= m'.shards
    ensures forall k | IsShard(m, k) :: IsShard(m', k)
  {
    forall k | IsShard(m, k) ensures IsShard(m', k) {
      var i :| 0 <= i < m.shards && k == ShardKey(i);
    }
  }

  /** Daemons keep to shards of the queue as it grows. */
  ghost predicate DaemonKeeps(m: Members, d: Daemon) {
    ShardsOnly(m, d.acquiring) && forall k | k in d.engines :: IsShard(m, k)
  }

  /** `add-shards` does not wrap the 32-bit count. */
  predicate Fits(s: State, step: Step) {
    step.AddShards? ==> s.members.shards + step.n < U32
  }

  /** The count falls on a step exactly when it wraps. */
  lemma CountFallsExactly(c: Config, s: State, step: Step)
    requires s.members.shards < U32 && Enabled(c, s, step)
    ensures Next(c, s, step).members.shards < U32
    ensures s.members.shards <= Next(c, s, step).members.shards <==> Fits(s, step)
  {
    hide IsShard, Claimable;
  }

  /** Load and claim are separate steps, but the count does not fall in between. */
  lemma StepShards(c: Config, s: State, step: Step)
    requires OnlyShards(s) && Enabled(c, s, step) && Fits(s, step)
    ensures OnlyShards(Next(c, s, step))
  {
    var s' := Next(c, s, step);
    CountFallsExactly(c, s, step);
    ShardsStay(s.members, s'.members);
    if step.Load? {
      ClaimableAreShards(s.members, s.daemons[step.o].acquiring.now, c.skew, step.o);
    }
    hide IsShard, Claimable;
    forall k | k in s'.members.claims ensures IsShard(s'.members, k) {
      assert k in s.members.claims || (step.WriteClaim? && k == s.daemons[step.o].acquiring.shard)
        || (step.BeatRenew? && k in s.members.claims);
    }
    forall o | o in s'.daemons ensures DaemonKeeps(s'.members, s'.daemons[o]) {
      StepKeeps(c, s, step, o);
    }
  }

  /** All that the daemon's loading step would make of the membership are shards of it. */
  ghost predicate ShardsLoaded(c: Config, s: State, o: Owner)
    requires o in s.daemons && s.daemons[o].acquiring.Loading?
  {
    forall k | k in Claimable(s.members, s.daemons[o].acquiring.now, c.skew, o) :: IsShard(s.members, k)
  }

  lemma StepKeeps(c: Config, s: State, step: Step, o: Owner)
    requires OnlyShards(s) && Enabled(c, s, step) && o in s.daemons
    requires forall k | IsShard(s.members, k) :: IsShard(Next(c, s, step).members, k)
    requires step.Load? ==> ShardsLoaded(c, s, step.o)
    ensures DaemonKeeps(Next(c, s, step).members, Next(c, s, step).daemons[o])
  {
    assert DaemonKeeps(s.members, s.daemons[o]);
    if Acts(step, o) {
      ActingDaemonKeeps(c, s, step, o);
    } else {
      DaemonStays(c, s, step, o);
      hide Next, Enabled, IsShard, Claimable, OnlyShards;
      assert DaemonKeeps(Next(c, s, step).members, s.daemons[o]);
    }
  }

  lemma ActingDaemonKeeps(c: Config, s: State, step: Step, o: Owner)
    requires Enabled(c, s, step) && o in s.daemons && Acts(step, o) && DaemonKeeps(s.members, s.daemons[o])
    requires forall k | IsShard(s.members, k) :: IsShard(Next(c, s, step).members, k)
    requires step.Load? ==> ShardsLoaded(c, s, o)
    ensures DaemonKeeps(Next(c, s, step).members, Next(c, s, step).daemons[o])
  {
    hide IsShard, Claimable, ClaimOn, Apply, Granted, Grown, Owns;
  }

  lemma {:induction false} RunLocks(c: Config, s: State, steps: seq<Step>)
    requires LocksHeld(s) && PossibleRun(c, s, steps)
    ensures LocksHeld(Run(c, s, steps))
    decreases |steps|
  {
    if steps != [] {
      StepLocks(c, s, steps[0]);
      RunLocks(c, Next(c, s, steps[0]), steps[1..]);
    }
  }

  /** In every run - crashes, takeovers, zombie claims and replays included - the engines
      of two daemons never share a shard, and no replay runs on a shard with an engine. */
  lemma OneEnginePerShard(c: Config, s0: State, steps: seq<Step>)
    requires IsInitial(s0) && PossibleRun(c, s0, steps)
    ensures var s := Run(c, s0, steps);
      && (forall o, p | o in s.daemons && p in s.daemons && o != p :: s.daemons[o].engines !! s.daemons[p].engines)
      && (forall o, k | o in s.daemons && k in s.daemons[o].engines :: k in s.flocks && s.flocks[k] == Engine(o))
  {
    RunLocks(c, s0, steps);
    var s := Run(c, s0, steps);
    forall o, p | o in s.daemons && p in s.daemons && o != p ensures s.daemons[o].engines !! s.daemons[p].engines {
      assert DaemonLocks(s.flocks, o, s.daemons[o]) && DaemonLocks(s.flocks, p, s.daemons[p]);
    }
  }

  /** Every lock an engine's daemon holds is of an engine it runs or is about to run. */
  ghost predicate NoStrayLocks(s: State) {
    forall k | k in s.flocks && s.flocks[k].Engine? :: Uses(s, s.flocks[k].owner, k)
  }

  ghost predicate Uses(s: State, o: Owner, k: Shard) {
    o in s.daemons && (k in s.daemons[o].engines || k in FlocksOf(s.daemons[o].acquiring))
  }

  lemma ActorUses(c: Config, s: State, step: Step, o: Owner, k: Shard)
    requires Enabled(c, s, step) && Acts(step, o) && o in s.daemons && DaemonLocks(s.flocks, o, s.daemons[o])
    requires k in s.flocks && s.flocks[k] == Engine(o) ==> Uses(s, o, k)
    ensures var s' := Next(c, s, step); k in s'.flocks && s'.flocks[k] == Engine(o) ==> Uses(s', o, k)
  {
    hide Claimable, ClaimOn, IsShard, Apply, Granted, Grown, Owns;
  }

  lemma NoneGained(c: Config, s: State, step: Step, o: Owner, k: Shard)
    requires Enabled(c, s, step) && !Acts(step, o)
    ensures var s' := Next(c, s, step);
      k in s'.flocks && s'.flocks[k] == Engine(o) ==> k in s.flocks && s.flocks[k] == Engine(o)
  {
    hide Claimable, ClaimOn, IsShard, Apply, Granted, Grown, Owns;
  }

  lemma StepNoStrayLocks(c: Config, s: State, step: Step)
    requires LocksHeld(s) && NoStrayLocks(s) && Enabled(c, s, step)
    ensures NoStrayLocks(Next(c, s, step))
  {
    var s' := Next(c, s, step);
    SameDaemons(c, s, step);
    forall k | k in s'.flocks && s'.flocks[k].Engine? ensures Uses(s', s'.flocks[k].owner, k) {
      var o := s'.flocks[k].owner;
      assert s'.flocks[k] == Engine(o);
      if Acts(step, o) {
        ActorKnown(c, s, step, o);
        LocksOf(s, o);
        ActorUses(c, s, step, o, k);
      } else {
        NoneGained(c, s, step, o, k);
        DaemonStays(c, s, step, o);
      }
    }
    hide Next, Enabled, LocksHeld;
  }

  lemma ActorKnown(c: Config, s: State, step: Step, o: Owner)
    requires Enabled(c, s, step) && Acts(step, o)
    ensures o in s.daemons
  {}

  lemma {:induction false} RunNoStrayLocks(c: Config, s: State, steps: seq<Step>)
    requires LocksHeld(s) && NoStrayLocks(s) && PossibleRun(c, s, steps)
    ensures LocksHeld(Run(c, s, steps)) && NoStrayLocks(Run(c, s, steps))
    decreases |steps|
  {
    hide LocksHeld, NoStrayLocks;
    if steps != [] {
      StepLocks(c, s, steps[0]);
      StepNoStrayLocks(c, s, steps[0]);
      RunNoStrayLocks(c, Next(c, s, steps[0]), steps[1..]);
    }
  }

  /** In every run a daemon holds the lock of exactly the shards it runs or has locked to
      run; one that has died or not yet booted holds none. */
  lemma LocksExactly(c: Config, s0: State, steps: seq<Step>, o: Owner, k: Shard)
    requires IsInitial(s0) && PossibleRun(c, s0, steps)
    ensures var s := Run(c, s0, steps);
      && (k in s.flocks && s.flocks[k] == Engine(o) <==> Uses(s, o, k))
      && (!IsUp(s, o) ==> !(k in s.flocks && s.flocks[k] == Engine(o)))
  {
    RunNoStrayLocks(c, s0, steps);
    var s := Run(c, s0, steps);
    if o in s.daemons { LocksOf(s, o); }
  }

  /** A heartbeat pauses an engine exactly when its entry is gone or another's, and leaves
      every other engine, and the membership then, as they are. */
  lemma BeatExactly(c: Config, s: State, o: Owner)
    requires Enabled(c, s, BeatRenew(o))
    ensures var s', k := Next(c, s, BeatRenew(o)), s.daemons[o].beat.shard;
      var lost := k !in s.members.claims || s.members.claims[k].owner != o;
      && s'.daemons[o].paused == s.daemons[o].paused + (if lost then {k} else {})
      && (lost ==> s'.members == s.members)
      && (!lost ==> s'.members.claims == s.members.claims[k := Lease(o, s.daemons[o].beat.now + 30 * SECOND)])
      && s'.daemons[o].engines == s.daemons[o].engines && s'.flocks == s.flocks
  {}

  /** Shutting down starts with every engine paused, its entries and locks kept. */
  lemma StopExactly(c: Config, s: State, o: Owner)
    requires Enabled(c, s, Stop(o))
    ensures var s' := Next(c, s, Stop(o));
      && s'.daemons[o].stopping && s'.daemons[o].paused == s.daemons[o].engines == s'.daemons[o].engines
      && s'.members == s.members && s'.flocks == s.flocks
  {}

  /** A daemon shutting down gives back its own entry and no other, and its lock stays. */
  lemma ReleaseExactly(c: Config, s: State, o: Owner, k: Shard)
    requires Enabled(c, s, ReleaseShard(o, k))
    ensures var s', claims := Next(c, s, ReleaseShard(o, k)), s.members.claims;
      && s'.members.claims == (if k in claims && claims[k].owner == o then claims - {k} else claims)
      && s'.flocks == s.flocks && s'.daemons[o].engines == s.daemons[o].engines
  {}

  /** Every point of the run has at least as many shards as the one before. */
  ghost predicate CountNeverFalls(c: Config, s: State, steps: seq<Step>)
    requires PossibleRun(c, s, steps)
    decreases |steps|
  {
    steps == [] || (s.members.shards <= Next(c, s, steps[0]).members.shards
                    && CountNeverFalls(c, Next(c, s, steps[0]), steps[1..]))
  }

  ghost predicate AllFit(c: Config, s: State, steps: seq<Step>)
    requires PossibleRun(c, s, steps)
    decreases |steps|
  {
    steps == [] || (Fits(s, steps[0]) && AllFit(c, Next(c, s, steps[0]), steps[1..]))
  }

  lemma {:induction false} RunShards(c: Config, s: State, steps: seq<Step>)
    requires s.members.shards < U32 && PossibleRun(c, s, steps)
    ensures CountNeverFalls(c, s, steps) <==> AllFit(c, s, steps)
    ensures OnlyShards(s) && AllFit(c, s, steps) ==> OnlyShards(Run(c, s, steps))
    decreases |steps|
  {
    hide OnlyShards;
    if steps != [] {
      CountFallsExactly(c, s, steps[0]);
      if OnlyShards(s) && Fits(s, steps[0]) { StepShards(c, s, steps[0]); }
      RunShards(c, Next(c, s, steps[0]), steps[1..]);
    }
  }

  /** In every run the shard count never falls exactly when no `add-shards` wraps it, and
      then every claim is for a shard of the queue, although load and claim are separate
      steps. */
  lemma ClaimsAreShards(c: Config, s0: State, steps: seq<Step>)
    requires IsInitial(s0) && s0.members.shards < U32 && PossibleRun(c, s0, steps)
    ensures CountNeverFalls(c, s0, steps) <==> AllFit(c, s0, steps)
    ensures AllFit(c, s0, steps) ==>
      forall k | k in Run(c, s0, steps).members.claims :: IsShard(Run(c, s0, steps).members, k)
  {
    InitialSound(s0);
    RunShards(c, s0, steps);
  }

  // ---- A daemon that renews in time loses no lease ----

  /** Up, and not shutting down. */
  ghost predicate Live(s: State, o: Owner) {
    IsUp(s, o) && !s.daemons[o].stopping
  }

  /** When daemon p is held to its leases: while it is up, either throughout or, if not
      `draining`, only until it begins to shut down. */
  ghost predicate Bound(s: State, p: Owner, draining: bool) {
    Live(s, p) || (draining && IsUp(s, p))
  }

  /** While p is bound, no running daemon's clock is ahead of p's by more than the margin,
      and p's own clock has not passed an expiry it wrote and has not given up. Nothing is
      asked of how other daemons renew or drain. */
  ghost predicate Timely(c: Config, s: State, p: Owner, draining: bool) {
    Bound(s, p, draining) ==>
      && (forall o | IsUp(s, o) :: s.daemons[o].clock <= s.daemons[p].clock + c.skew)
      && (forall k | k in s.daemons[p].lease :: s.daemons[p].clock <= s.daemons[p].lease[k])
  }

  ghost predicate TimelyRun(c: Config, s: State, steps: seq<Step>, p: Owner, draining: bool)
    decreases |steps|
  {
    && Timely(c, s, p, draining)
    && (steps == [] ||
        (Enabled(c, s, steps[0]) && TimelyRun(c, Next(c, s, steps[0]), steps[1..], p, draining)))
  }

  /** Clock readings waiting to be used are not from the future. */
  ghost predicate ReadingsPast(s: State) {
    forall o | o in s.daemons ::
      var a := s.daemons[o].acquiring; a.Loading? || a.Claiming? ==> a.now <= s.daemons[o].clock
  }

  lemma StepReadings(c: Config, s: State, step: Step)
    requires ReadingsPast(s) && Enabled(c, s, step)
    ensures ReadingsPast(Next(c, s, step))
  {
    hide IsShard, Claimable, ClaimOn, Apply, Granted, Grown, Owns;
  }

  ghost predicate NoRepeats(ks: seq<Shard>) {
    forall i, j | 0 <= i < j < |ks| :: ks[i] != ks[j]
  }

  /** No shard is worked on twice in one acquisition. */
  ghost predicate Distinct(a: Acquiring) {
    && (a.Choosing? || a.Claiming? || a.Locking? || a.Reverting? ==>
          NoRepeats(a.todo) && forall k | k in a.todo :: k !in a.flocks)
    && (a.Claiming? || a.Locking? || a.Reverting? ==> a.shard !in a.todo && a.shard !in a.flocks)
  }

  /** Every lock an acquisition has taken, or is about to take, is under a lease. */
  ghost predicate AcquiresUnder(a: Acquiring, clock: Time, lease: map<Shard, Time>) {
    && Distinct(a) && (a.Loading? || a.Claiming? ==> a.now <= clock)
    && FlocksOf(a) <= lease.Keys && (a.Locking? ==> a.shard in lease)
  }

  ghost predicate LeasesWritten(m: Members, o: Owner, lease: map<Shard, Time>) {
    forall k | k in lease :: Owns(m, k, o) && m.claims[k].expiry == lease[k]
  }

  lemma GrantWritten(m: Members, o: Owner, lease: map<Shard, Time>, k: Shard, now: Time)
    requires LeasesWritten(m, o, lease)
    ensures LeasesWritten(Granted(m, k, o, now), o, lease[k := now + LEASE])
  {}

  lemma DropWritten(m: Members, m': Members, o: Owner, lease: map<Shard, Time>, ks: set<Shard>)
    requires LeasesWritten(m, o, lease)
    requires forall k | k in m.claims && k !in ks :: k in m'.claims && m'.claims[k] == m.claims[k]
    ensures LeasesWritten(m', o, lease - ks)
  {}

  /** What a daemon believes it owns, membership says it owns, to the same instant; every
      engine not being shut down is under a lease, and none is paused. */
  ghost predicate DaemonEntitled(m: Members, o: Owner, d: Daemon) {
    && LeasesWritten(m, o, d.lease)
    && AcquiresUnder(d.acquiring, d.clock, d.lease)
    && (d.beat.Renewing? ==> d.beat.now <= d.clock)
    && (!d.stopping ==> d.engines <= d.lease.Keys && d.paused == {} && (d.beat.Renewing? ==> d.beat.shard in d.engines))
  }

  ghost predicate EntitledAt(s: State, p: Owner) {
    p in s.daemons && DaemonEntitled(s.members, p, s.daemons[p])
  }

  ghost predicate Entitled(s: State, p: Owner, draining: bool) {
    Bound(s, p, draining) ==> EntitledAt(s, p)
  }

  /** A lease a bound daemon relies on is not lapsed, however stale the clock reading of
      another that it is judged by. */
  lemma LiveLeaseNotLapsed(c: Config, s: State, o: Owner, p: Owner, draining: bool, k: Shard, now: Time)
    requires Timely(c, s, p, draining) && Entitled(s, p, draining) && Bound(s, p, draining)
    requires k in s.daemons[p].lease && IsUp(s, o) && now <= s.daemons[o].clock
    ensures Owns(s.members, k, p) && !IsLapsed(s.members.claims[k], now, c.skew)
  {
    assert DaemonEntitled(s.members, p, s.daemons[p]);
  }

  /** A daemon's entitlement survives steps that leave it, and the claims it relies on,
      alone; its clock may advance. */
  lemma EntitledFrame(m: Members, m': Members, o: Owner, d: Daemon, d': Daemon)
    requires DaemonEntitled(m, o, d) && d.clock <= d'.clock && d' == d.(clock := d'.clock)
    requires forall k | k in d.lease :: k in m'.claims && m'.claims[k] == m.claims[k]
    ensures DaemonEntitled(m', o, d')
  {}

  /** An entry outlives the steps of others unless one takes it over after it lapsed. */
  lemma EntryStays(c: Config, s: State, step: Step, o: Owner, k: Shard)
    requires Enabled(c, s, step) && !Acts(step, o) && Owns(s.members, k, o)
    requires step.WriteClaim? && s.daemons[step.o].acquiring.shard == k ==>
      !IsLapsed(s.members.claims[k], s.daemons[step.o].acquiring.now, c.skew)
    ensures k in Next(c, s, step).members.claims && Next(c, s, step).members.claims[k] == s.members.claims[k]
  {
    hide IsShard, Claimable;
  }

  lemma OthersStepEntitled(c: Config, s: State, step: Step, p: Owner, draining: bool)
    requires Timely(c, s, p, draining) && Entitled(s, p, draining) && ReadingsPast(s) && Bound(s, p, draining)
    requires Enabled(c, s, step) && !Acts(step, p)
    ensures EntitledAt(Next(c, s, step), p)
  {
    var s', d := Next(c, s, step), s.daemons[p];
    DaemonStays(c, s, step, p);
    assert DaemonEntitled(s.members, p, d);
    hide Next, Timely, Entitled, Bound, IsLapsed, AcquiresUnder;
    forall k | k in d.lease ensures k in s'.members.claims && s'.members.claims[k] == s.members.claims[k] {
      if step.WriteClaim? {
        LiveLeaseNotLapsed(c, s, step.o, p, draining, k, s.daemons[step.o].acquiring.now);
      }
      EntryStays(c, s, step, p, k);
    }
    EntitledFrame(s.members, s'.members, p, d, s'.daemons[p]);
  }

  ghost predicate DaemonSound(s: State, o: Owner) {
    IsUp(s, o) && DaemonEntitled(s.members, o, s.daemons[o]) && DaemonLocks(s.flocks, o, s.daemons[o])
  }

  lemma LoadStepEntitled(c: Config, s: State, o: Owner)
    requires DaemonSound(s, o) && Enabled(c, s, Load(o))
    ensures DaemonEntitled(Next(c, s, Load(o)).members, o, Next(c, s, Load(o)).daemons[o])
  {
    ClaimableExact(s.members, s.members.shards, s.daemons[o].acquiring.now, c.skew, o);
    hide IsShard, LeasesWritten, Claimable, DaemonLocks;
  }

  lemma ReadStepEntitled(c: Config, s: State, step: Step, o: Owner)
    requires DaemonSound(s, o) && Enabled(c, s, step) && Acts(step, o)
    requires step.ReadClock? || step.ReadClaimClock?
    ensures DaemonEntitled(Next(c, s, step).members, o, Next(c, s, step).daemons[o])
  {
    hide IsShard, LeasesWritten, Claimable, ClaimOn, Apply, Granted, Grown, DaemonLocks;
  }

  lemma LockStepEntitled(c: Config, s: State, step: Step, o: Owner)
    requires DaemonSound(s, o) && Enabled(c, s, step) && Acts(step, o)
    requires step.StartEngines? || step.TryLock?
    ensures DaemonEntitled(Next(c, s, step).members, o, Next(c, s, step).daemons[o])
  {
    hide IsShard, LeasesWritten, Claimable, ClaimOn, Apply, Granted, Grown, NoRepeats;
  }

  lemma WriteStepEntitled(c: Config, s: State, step: Step, o: Owner)
    requires DaemonSound(s, o) && Enabled(c, s, step) && Acts(step, o)
    requires step.WriteClaim? || step.RevertClaim?
    ensures DaemonEntitled(Next(c, s, step).members, o, Next(c, s, step).daemons[o])
  {
    hide IsShard, LeasesWritten, Claimable, ClaimOn;
    var d, a, s' := s.daemons[o], s.daemons[o].acquiring, Next(c, s, step);
    if step.RevertClaim? {
      DropWritten(s.members, s'.members, o, d.lease, {a.shard});
    } else if s'.members != s.members {
      GrantWritten(s.members, o, d.lease, a.shard, a.now);
    } else {
      DropWritten(s.members, s'.members, o, d.lease, a.flocks);
    }
  }

  lemma BeatStepEntitled(c: Config, s: State, step: Step, o: Owner)
    requires DaemonSound(s, o) && Enabled(c, s, step) && Acts(step, o)
    requires step.BeatRead? || step.BeatRenew?
    ensures DaemonEntitled(Next(c, s, step).members, o, Next(c, s, step).daemons[o])
  {
    hide IsShard, Claimable, ClaimOn;
    if step.BeatRenew? {
      var d, b := s.daemons[o], s.daemons[o].beat;
      GrantWritten(s.members, o, d.lease, b.shard, b.now);
      DropWritten(s.members, s.members, o, d.lease, {b.shard});
    }
  }

  lemma StopStepEntitled(c: Config, s: State, step: Step, o: Owner)
    requires DaemonSound(s, o) && Enabled(c, s, step) && Acts(step, o)
    requires step.Stop? || step.ReleaseShard?
    ensures DaemonEntitled(Next(c, s, step).members, o, Next(c, s, step).daemons[o])
  {
    hide IsShard, Claimable, ClaimOn;
    if step.ReleaseShard? {
      DropWritten(s.members, Next(c, s, step).members, o, s.daemons[o].lease, {step.shard});
    }
  }

  lemma ActingStepEntitled(c: Config, s: State, step: Step, o: Owner)
    requires DaemonSound(s, o) && Enabled(c, s, step) && Acts(step, o) && !step.Crash?
    ensures DaemonEntitled(Next(c, s, step).members, o, Next(c, s, step).daemons[o])
  {
    assert IsUp(s, o);
    hide Next, DaemonSound;
    match step
    case WriteClaim(_) => WriteStepEntitled(c, s, step, o);
    case RevertClaim(_) => WriteStepEntitled(c, s, step, o);
    case BeatRead(_, _) => BeatStepEntitled(c, s, step, o);
    case BeatRenew(_) => BeatStepEntitled(c, s, step, o);
    case Stop(_) => StopStepEntitled(c, s, step, o);
    case ReleaseShard(_, _) => StopStepEntitled(c, s, step, o);
    case Load(_) => LoadStepEntitled(c, s, o);
    case TryLock(_) => LockStepEntitled(c, s, step, o);
    case StartEngines(_) => LockStepEntitled(c, s, step, o);
    case _ => ReadStepEntitled(c, s, step, o);
  }

  lemma StepEntitled(c: Config, s: State, step: Step, p: Owner, draining: bool)
    requires Timely(c, s, p, draining) && Entitled(s, p, draining) && ReadingsPast(s) && LocksHeld(s)
    requires Enabled(c, s, step)
    ensures Entitled(Next(c, s, step), p, draining)
  {
    var s' := Next(c, s, step);
    if Bound(s', p, draining) {
      if !Acts(step, p) {
        DaemonStays(c, s, step, p);
        OthersStepEntitled(c, s, step, p, draining);
      } else if IsUp(s, p) {
        LocksOf(s, p);
        ActingStepEntitled(c, s, step, p);
      }
    }
  }

  lemma {:induction false} TimelyEntitled(c: Config, s: State, steps: seq<Step>, p: Owner, draining: bool)
    requires LocksHeld(s) && ReadingsPast(s) && Entitled(s, p, draining) && TimelyRun(c, s, steps, p, draining)
    ensures PossibleRun(c, s, steps)
    ensures var s' := Run(c, s, steps);
      LocksHeld(s') && ReadingsPast(s') && Entitled(s', p, draining) && Timely(c, s', p, draining)
    decreases |steps|
  {
    hide LocksHeld, ReadingsPast, Entitled, Timely;
    if steps != [] {
      StepLocks(c, s, steps[0]);
      StepReadings(c, s, steps[0]);
      StepEntitled(c, s, steps[0], p, draining);
      TimelyEntitled(c, Next(c, s, steps[0]), steps[1..], p, draining);
    }
  }

  /** What a daemon that renews in time can count on while it is bound: nobody takes over an
      entry it relies on; and, until it begins to shut down, its heartbeat never finds a
      lease lost, none of its engines is paused, and each has its shard claimed and locked
      by it. */
  ghost predicate Secure(c: Config, s: State, p: Owner, draining: bool) {
    Bound(s, p, draining) ==>
      && (forall o | Enabled(c, s, WriteClaim(o)) ::
            var a := s.daemons[o].acquiring;
            ClaimOn(s.members, a.shard, o, a.now, c.skew) == Ok(TakenOver(p)) ==> a.shard !in s.daemons[p].lease)
      && (Live(s, p) ==>
            && (Enabled(c, s, BeatRenew(p)) ==> Owns(s.members, s.daemons[p].beat.shard, p))
            && s.daemons[p].paused == {}
            && (forall k | k in s.daemons[p].engines ::
                  Owns(s.members, k, p) && k in s.flocks && s.flocks[k] == Engine(p)))
  }

  /** Lease safety, daemon by daemon. In every run in which daemon p renews before its own
      clock passes the expiry it wrote and no clock is ahead of p's by more than the margin,
      p is secure at every point, whatever the others do: they may stall, drain too long or
      crash. If p itself may drain for too long, that holds until it begins to shut down,
      and again after a restart. */
  lemma LeaseSafety(c: Config, s0: State, steps: seq<Step>, p: Owner, draining: bool)
    requires IsInitial(s0) && TimelyRun(c, s0, steps, p, draining)
    ensures PossibleRun(c, s0, steps) && Secure(c, Run(c, s0, steps), p, draining)
  {
    TimelyEntitled(c, s0, steps, p, draining);
    EntitledMeans(c, Run(c, s0, steps), p, draining);
  }

  lemma EntitledMeans(c: Config, s: State, p: Owner, draining: bool)
    requires LocksHeld(s) && ReadingsPast(s) && Entitled(s, p, draining) && Timely(c, s, p, draining)
    ensures Secure(c, s, p, draining)
  {
    if Bound(s, p, draining) {
      LocksOf(s, p);
      forall o | Enabled(c, s, WriteClaim(o)) && s.daemons[o].acquiring.shard in s.daemons[p].lease
        ensures var a := s.daemons[o].acquiring; ClaimOn(s.members, a.shard, o, a.now, c.skew) != Ok(TakenOver(p))
      {
        var a := s.daemons[o].acquiring;
        LiveLeaseNotLapsed(c, s, o, p, draining, a.shard, a.now);
      }
    }
  }

  // ---- When an owner stalls ----

  ghost predicate Reachable(c: Config, s0: State, s: State) {
    exists steps :: PossibleRun(c, s0, steps) && Run(c, s0, steps) == s
  }

  lemma {:induction false} RunThenStep(c: Config, s: State, steps: seq<Step>, step: Step)
    requires PossibleRun(c, s, steps) && Enabled(c, Run(c, s, steps), step)
    ensures PossibleRun(c, s, steps + [step]) && Run(c, s, steps + [step]) == Next(c, Run(c, s, steps), step)
    decreases |steps|
  {
    var all := steps + [step];
    if steps == [] {
      assert all[0] == step && all[1..] == [];
    } else {
      RunThenStep(c, Next(c, s, steps[0]), steps[1..], step);
      assert all[0] == steps[0] && all[1..] == steps[1..] + [step];
    }
  }

  lemma Reach(c: Config, s0: State, s: State, step: Step) returns (s': State)
    requires Reachable(c, s0, s) && Enabled(c, s, step)
    ensures Reachable(c, s0, s') && s' == Next(c, s, step)
  {
    var steps :| PossibleRun(c, s0, steps) && Run(c, s0, steps) == s;
    RunThenStep(c, s0, steps, step);
    s' := Next(c, s, step);
    assert Run(c, s0, steps + [step]) == s';
  }

  const OneShard := Config(5 * SECOND, 1)

  const TwoDaemons := State(Members(1, 0, map[]), map[], map["a" := Down(0), "b" := Down(0)])

  /** A daemon that is up boots through to a written claim on the only shard. */
  lemma ClaimsTheShard(s: State, o: Owner) returns (s': State)
    requires Reachable(OneShard, TwoDaemons, s) && o in s.daemons && s.members.shards == 1
    requires s.daemons[o] == Down(s.daemons[o].clock).(up := true)
    requires MayClaim(s.members, ShardKey(0), s.daemons[o].clock, OneShard.skew, o)
    ensures Reachable(OneShard, TwoDaemons, s') && s'.flocks == s.flocks
    ensures s'.members == Granted(s.members, ShardKey(0), o, s.daemons[o].clock)
    ensures s'.daemons == s.daemons[o := s.daemons[o].(
      acquiring := Locking(ShardKey(0), [], {}), lease := map[ShardKey(0) := s.daemons[o].clock + LEASE])]
  {
    hide ShardKey, Claimable;
    s' := Chooses(s, o);
    s' := Reach(OneShard, TwoDaemons, s', ReadClaimClock(o));
    assert [ShardKey(0)][1..] == [];
    assert s'.daemons == s.daemons[o := s'.daemons[o]];
    assert s' == Set(s, o, s.daemons[o].(acquiring := Claiming(ShardKey(0), s.daemons[o].clock, [], {})));
    s' := Reach(OneShard, TwoDaemons, s', WriteClaim(o));
  }

  lemma Chooses(s: State, o: Owner) returns (s': State)
    requires Reachable(OneShard, TwoDaemons, s) && o in s.daemons && s.members.shards == 1
    requires s.daemons[o] == Down(s.daemons[o].clock).(up := true)
    requires MayClaim(s.members, ShardKey(0), s.daemons[o].clock, OneShard.skew, o)
    ensures Reachable(OneShard, TwoDaemons, s')
    ensures s' == Set(s, o, s.daemons[o].(acquiring := Choosing([ShardKey(0)], {})))
  {
    hide ShardKey;
    var now := s.daemons[o].clock;
    s' := Reach(OneShard, TwoDaemons, s, ReadClock(o));
    assert ClaimableBelow(s.members, 0, now, OneShard.skew, o) == [];
    assert Claimable(s.members, now, OneShard.skew, o) == [ShardKey(0)];
    s' := Reach(OneShard, TwoDaemons, s', Load(o));
  }

  lemma FirstRuns() returns (s: State)
    ensures Reachable(OneShard, TwoDaemons, s) && s.flocks == map[ShardKey(0) := Engine("a")]
    ensures s.members.shards == 1 && s.members.claims == map[ShardKey(0) := Lease("a", LEASE)]
    ensures s.daemons == map[
      "a" := Down(0).(up := true, engines := {ShardKey(0)}, lease := map[ShardKey(0) := LEASE]), "b" := Down(0)]
  {
    assert PossibleRun(OneShard, TwoDaemons, []) && Run(OneShard, TwoDaemons, []) == TwoDaemons;
    assert Reachable(OneShard, TwoDaemons, TwoDaemons);
    hide Reachable, ShardKey, Claimable;
    s := Reach(OneShard, TwoDaemons, TwoDaemons, Boot("a"));
    s := ClaimsTheShard(s, "a");
    s := LocksAndRuns(s, "a");
  }

  lemma LocksAndRuns(s: State, o: Owner) returns (s': State)
    requires Reachable(OneShard, TwoDaemons, s) && IsUp(s, o) && ShardKey(0) !in s.flocks
    requires s.daemons[o].acquiring == Locking(ShardKey(0), [], {}) && s.daemons[o].engines == {}
    ensures Reachable(OneShard, TwoDaemons, s') && s'.members == s.members
    ensures s'.flocks == s.flocks[ShardKey(0) := Engine(o)]
    ensures s'.daemons == s.daemons[o := s.daemons[o].(acquiring := Resting, engines := {ShardKey(0)})]
  {
    hide Reachable, ShardKey, Claimable;
    s' := Reach(OneShard, TwoDaemons, s, TryLock(o));
    s' := Reach(OneShard, TwoDaemons, s', StartEngines(o));
  }

  /** Membership can disagree with the locks after all. When an owner stalls past its
      lease, a challenger takes the entry over, is refused the lock, and reverts the entry
      to free - while the first engine, unpaused, still holds the lock. */
  lemma RevertLeavesLockedShardFree() returns (s: State)
    ensures Reachable(OneShard, TwoDaemons, s) && IsUp(s, "a")
    ensures ShardKey(0) in s.daemons["a"].engines && s.daemons["a"].paused == {}
    ensures s.flocks == map[ShardKey(0) := Engine("a")] && s.members.claims == map[]
  {
    hide ShardKey;
    s := FirstRuns();
    s := FirstStalls(s);
    s := ClaimsTheShard(s, "b");
    s := RefusedAndReverted(s, "b");
  }

  /** The lock of a shard just claimed is held by another: the claim is taken back. */
  lemma RefusedAndReverted(s: State, o: Owner) returns (s': State)
    requires Reachable(OneShard, TwoDaemons, s) && IsUp(s, o)
    requires s.daemons[o].acquiring == Locking(ShardKey(0), [], {}) && ShardKey(0) in s.flocks
    ensures Reachable(OneShard, TwoDaemons, s') && s'.flocks == s.flocks
    ensures s'.members.claims ==
      if Owns(s.members, ShardKey(0), o) then s.members.claims - {ShardKey(0)} else s.members.claims
    ensures forall p | p != o && p in s.daemons :: p in s'.daemons && s'.daemons[p] == s.daemons[p]
  {
    hide ShardKey, Claimable, IsShard;
    s' := Reach(OneShard, TwoDaemons, s, TryLock(o));
    s' := Reach(OneShard, TwoDaemons, s', RevertClaim(o));
  }

  lemma FirstStalls(s: State) returns (s': State)
    requires Reachable(OneShard, TwoDaemons, s) && s.daemons.Keys == {"a", "b"}
    requires s.daemons["a"].clock == 0 && s.daemons["b"] == Down(0)
    ensures Reachable(OneShard, TwoDaemons, s') && s'.members == s.members && s'.flocks == s.flocks
    ensures s'.daemons == map["a" := s.daemons["a"].(clock := 36 * SECOND), "b" := Down(36 * SECOND).(up := true)]
  {
    var later := 36 * SECOND;
    s' := Reach(OneShard, TwoDaemons, s, Tick(map["a" := later, "b" := later]));
    s' := Reach(OneShard, TwoDaemons, s', Boot("b"));
  }
}
