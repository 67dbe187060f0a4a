/** When membership and the file locks agree, and what a refused claim leaves behind
    (src/main.rs, src/membership.rs), both exactly and in all runs of module LeaseProtocol. */
module LeaseAgreement {
  import opened Tasks
  import opened Membership
  import opened LeaseProtocol

  // ---- Agreement of membership and locks ----

  /** The daemon runs the shard, has locked it to run it, or is about to lock it. */
  predicate Relies(d: Daemon, k: Shard) {
    k in d.engines || k in FlocksOf(d.acquiring) || (d.acquiring.Locking? && d.acquiring.shard == k)
  }

  ghost predicate DaemonAgrees(m: Members, o: Owner, d: Daemon) {
    d.up && !d.stopping ==> forall k | Relies(d, k) :: Owns(m, k, o)
  }

  /** Every daemon owns in membership each shard it relies on, unless it is shutting down. */
  ghost predicate Agree(s: State) {
    forall o | o in s.daemons :: DaemonAgrees(s.members, o, s.daemons[o])
  }

  /** The takeover branch is about to be taken on a shard another live daemon relies on. */
  ghost predicate TakesLive(c: Config, s: State, step: Step)
    requires Enabled(c, s, step)
  {
    step.WriteClaim? &&
    var a := s.daemons[step.o].acquiring;
    a.shard in s.members.claims && IsLapsed(s.members.claims[a.shard], a.now, c.skew)
    && exists p :: p != step.o && Live(s, p) && Relies(s.daemons[p], a.shard)
  }

  ghost predicate AllDistinct(s: State) {
    forall o | o in s.daemons :: Distinct(s.daemons[o].acquiring)
  }

  lemma ActingDistinct(c: Config, s: State, step: Step, o: Owner)
    requires Enabled(c, s, step) && o in s.daemons && Acts(step, o) && Distinct(s.daemons[o].acquiring)
    ensures Distinct(Next(c, s, step).daemons[o].acquiring)
  {
    hide IsShard, ClaimOn, Apply, Granted, Grown, Owns;
    if step.Load? {
      ClaimableExact(s.members, s.members.shards, s.daemons[o].acquiring.now, c.skew, o);
    }
  }

  lemma StepDistinct(c: Config, s: State, step: Step)
    requires AllDistinct(s) && Enabled(c, s, step)
    ensures AllDistinct(Next(c, s, step))
  {
    var s' := Next(c, s, step);
    SameDaemons(c, s, step);
    hide Next, Enabled, Distinct;
    forall o | o in s'.daemons ensures Distinct(s'.daemons[o].acquiring) {
      if Acts(step, o) { ActingDistinct(c, s, step, o); } else { DaemonStays(c, s, step, o); }
    }
  }

  lemma ActingAgrees(c: Config, s: State, step: Step, o: Owner)
    requires Enabled(c, s, step) && o in s.daemons && Acts(step, o)
    requires DaemonLocks(s.flocks, o, s.daemons[o]) && Distinct(s.daemons[o].acquiring)
    requires DaemonAgrees(s.members, o, s.daemons[o])
    ensures DaemonAgrees(Next(c, s, step).members, o, Next(c, s, step).daemons[o])
  {
    var s' := Next(c, s, step);
    if Live(s, o) && Live(s', o) {
      hide Next, Enabled, Distinct, DaemonLocks;
      forall k | Relies(s'.daemons[o], k) ensures Owns(s'.members, k, o) {
        if Relies(s.daemons[o], k) {
          ReliedStays(c, s, step, o, k);
        } else {
          NewlyRelied(c, s, step, o, k);
        }
      }
    }
  }

  /** A live daemon never gives back a claim it goes on relying on. */
  lemma ReliedStays(c: Config, s: State, step: Step, o: Owner, k: Shard)
    requires Enabled(c, s, step) && Live(s, o) && Acts(step, o) && Relies(s.daemons[o], k) && Owns(s.members, k, o)
    requires DaemonLocks(s.flocks, o, s.daemons[o]) && Distinct(s.daemons[o].acquiring)
    ensures Owns(Next(c, s, step).members, k, o)
  {
    hide IsShard, Claimable, ClaimOn, NoRepeats, Relies;
    if step.RevertClaim? { RevertRelies(s.daemons[o], k); }
  }

  lemma RevertRelies(d: Daemon, k: Shard)
    requires d.acquiring.Reverting? && Relies(d, k)
    ensures k in d.engines || k in d.acquiring.flocks
  {}

  /** The only shard it begins to rely on is one it has just claimed. */
  lemma NewlyRelied(c: Config, s: State, step: Step, o: Owner, k: Shard)
    requires Enabled(c, s, step) && Live(s, o) && Acts(step, o)
    requires !Relies(s.daemons[o], k) && Live(Next(c, s, step), o) && Relies(Next(c, s, step).daemons[o], k)
    ensures Owns(Next(c, s, step).members, k, o)
  {
    hide IsShard, Claimable, ClaimOn, NoRepeats;
  }

  /** What a daemon relies on survives the steps of others that do not take it over. */
  lemma OthersAgree(c: Config, s: State, step: Step, o: Owner)
    requires Enabled(c, s, step) && o in s.daemons && !Acts(step, o) && !TakesLive(c, s, step)
    requires DaemonAgrees(s.members, o, s.daemons[o])
    ensures DaemonAgrees(Next(c, s, step).members, o, Next(c, s, step).daemons[o])
  {
    DaemonStays(c, s, step, o);
    var d, s' := s.daemons[o], Next(c, s, step);
    if Live(s, o) {
      hide Next;
      forall k | Relies(d, k) ensures Owns(s'.members, k, o) {
        EntryStays(c, s, step, o, k);
      }
    }
  }

  /** From agreement, a step breaks it exactly when it takes over a lapsed entry that
      another live daemon relies on: the guard of the takeover branch. */
  lemma AgreeStep(c: Config, s: State, step: Step)
    requires LocksHeld(s) && AllDistinct(s) && Agree(s) && Enabled(c, s, step)
    ensures Agree(Next(c, s, step)) <==> !TakesLive(c, s, step)
  {
    var s' := Next(c, s, step);
    SameDaemons(c, s, step);
    if TakesLive(c, s, step) {
      TakeoverBreaks(c, s, step);
    } else {
      forall o | o in s'.daemons ensures DaemonAgrees(s'.members, o, s'.daemons[o]) {
        LocksOf(s, o);
        hide Next, TakesLive, LocksHeld;
        if Acts(step, o) { ActingAgrees(c, s, step, o); } else { OthersAgree(c, s, step, o); }
      }
    }
  }

  lemma TakeoverBreaks(c: Config, s: State, step: Step)
    requires Agree(s) && Enabled(c, s, step) && TakesLive(c, s, step)
    ensures !Agree(Next(c, s, step))
  {
    var k := s.daemons[step.o].acquiring.shard;
    var p :| p != step.o && Live(s, p) && Relies(s.daemons[p], k);
    assert DaemonAgrees(s.members, p, s.daemons[p]);
    DaemonStays(c, s, step, p);
    var s' := Next(c, s, step);
    assert Relies(s'.daemons[p], k) && !Owns(s'.members, k, p);
    assert !DaemonAgrees(s'.members, p, s'.daemons[p]);
  }

  /** Membership and locks agree at every point of the run. */
  ghost predicate AgreesThroughout(c: Config, s: State, steps: seq<Step>)
    requires PossibleRun(c, s, steps)
    decreases |steps|
  {
    Agree(s) && (steps == [] || AgreesThroughout(c, Next(c, s, steps[0]), steps[1..]))
  }

  ghost predicate NoLiveTakeover(c: Config, s: State, steps: seq<Step>)
    requires PossibleRun(c, s, steps)
    decreases |steps|
  {
    steps == [] || (!TakesLive(c, s, steps[0]) && NoLiveTakeover(c, Next(c, s, steps[0]), steps[1..]))
  }

  lemma {:induction false} AgreeRun(c: Config, s: State, steps: seq<Step>)
    requires LocksHeld(s) && AllDistinct(s) && Agree(s) && PossibleRun(c, s, steps)
    ensures AgreesThroughout(c, s, steps) <==> NoLiveTakeover(c, s, steps)
    decreases |steps|
  {
    hide LocksHeld, AllDistinct, Agree, TakesLive;
    if steps != [] {
      var s' := Next(c, s, steps[0]);
      StepLocks(c, s, steps[0]);
      StepDistinct(c, s, steps[0]);
      AgreeStep(c, s, steps[0]);
      if Agree(s') { AgreeRun(c, s', steps[1..]); }
    }
  }

  /** In every run membership agrees with the locks at every point if and only if no claim
      ever takes over a lapsed entry of a shard that another live daemon runs, has locked
      or is about to lock. */
  lemma AgreementExact(c: Config, s0: State, steps: seq<Step>)
    requires IsInitial(s0) && PossibleRun(c, s0, steps)
    ensures AgreesThroughout(c, s0, steps) <==> NoLiveTakeover(c, s0, steps)
  {
    AgreeRun(c, s0, steps);
  }

  // ---- What a refused claim leaves behind ----

  predicate WorksOn(a: Acquiring, k: Shard) {
    (a.Claiming? || a.Locking? || a.Reverting?) && a.shard == k
  }

  /** A running daemon owns the shard in membership, but neither holds its lock nor is
      working to get it. */
  ghost predicate Orphan(s: State, o: Owner, k: Shard) {
    && IsUp(s, o) && Owns(s.members, k, o)
    && !(k in s.flocks && s.flocks[k] == Engine(o)) && !WorksOn(s.daemons[o].acquiring, k)
  }

  ghost predicate Refused(c: Config, s: State, o: Owner)
    requires Enabled(c, s, WriteClaim(o))
  {
    var a := s.daemons[o].acquiring;
    ClaimOn(s.members, a.shard, o, a.now, c.skew).Err?
  }

  /** From any state of a run: a claim orphans a shard exactly when it is refused and the
      shard is one already locked in the same acquisition that is still the daemon's. */
  lemma OrphansExactly(c: Config, s: State, o: Owner, k: Shard)
    requires LocksHeld(s) && Enabled(c, s, WriteClaim(o))
    ensures Orphan(Next(c, s, WriteClaim(o)), o, k) && !Orphan(s, o, k) <==>
      Refused(c, s, o) && k in s.daemons[o].acquiring.flocks && Owns(s.members, k, o)
  {
    LocksOf(s, o);
    hide LocksHeld;
  }

  /** So while membership and locks agree, a live daemon's claim orphans something exactly
      when it is refused after some lock was taken, and then it orphans every shard locked
      so far: still claimed by the daemon, unlocked, and run by no engine of it. */
  lemma RefusalOrphansClaims(c: Config, s: State, o: Owner)
    requires LocksHeld(s) && Agree(s) && Enabled(c, s, WriteClaim(o)) && Live(s, o)
    ensures var s', locked := Next(c, s, WriteClaim(o)), s.daemons[o].acquiring.flocks;
      && ((exists k :: Orphan(s', o, k) && !Orphan(s, o, k)) <==> Refused(c, s, o) && locked != {})
      && (Refused(c, s, o) ==> forall k | k in locked ::
            Orphan(s', o, k) && Owns(s'.members, k, o) && k !in s'.flocks && k !in s'.daemons[o].engines)
  {
    var s', locked := Next(c, s, WriteClaim(o)), s.daemons[o].acquiring.flocks;
    LocksOf(s, o);
    forall k
      ensures Orphan(s', o, k) && !Orphan(s, o, k) <==> Refused(c, s, o) && k in locked && Owns(s.members, k, o)
    {
      OrphansExactly(c, s, o, k);
    }
    assert DaemonAgrees(s.members, o, s.daemons[o]);
    assert forall k | k in locked :: Relies(s.daemons[o], k);
    if Refused(c, s, o) && locked != {} {
      var k :| k in locked;
      assert Orphan(s', o, k) && !Orphan(s, o, k);
    }
  }

  // ---- A run that gets there ----

  const TwoShards := Config(5 * SECOND, 2)

  const NoShardsYet := State(Members(0, 0, map[]), map[], map["a" := Down(0), "b" := Down(0)])

  ghost predicate Got(s: State) {
    Reachable(TwoShards, NoShardsYet, s)
  }

  lemma Go(s: State, step: Step) returns (s': State)
    requires Got(s) && Enabled(TwoShards, s, step)
    ensures Got(s') && s' == Next(TwoShards, s, step)
  {
    s' := Reach(TwoShards, NoShardsYet, s, step);
  }

  lemma TwoNames()
    ensures ShardKey(0) != ShardKey(1)
  {
    if ShardKey(0) == ShardKey(1) { ShardKeyInjective(0, 1); }
  }

  lemma TwoClaimable(m: Members, o: Owner)
    requires m.shards == 2
    requires MayClaim(m, ShardKey(1), 0, TwoShards.skew, o)
    ensures Claimable(m, 0, TwoShards.skew, o) ==
      (if MayClaim(m, ShardKey(0), 0, TwoShards.skew, o) then [ShardKey(0)] else []) + [ShardKey(1)]
  {
    hide ShardKey, MayClaim;
    assert ClaimableBelow(m, 0, 0, TwoShards.skew, o) == [];
    assert ClaimableBelow(m, 1, 0, TwoShards.skew, o) ==
      if MayClaim(m, ShardKey(0), 0, TwoShards.skew, o) then [ShardKey(0)] else [];
  }

  const Standby: Daemon := Down(0).(up := true)

  /** A daemon without engines looks at the membership: at boot, or on a standby retry. */
  lemma Looks(s: State, o: Owner) returns (s': State)
    requires Got(s) && o in s.daemons && s.daemons[o] == Standby
    ensures Got(s')
    ensures s' == Set(s, o, Standby.(acquiring := Choosing(Claimable(s.members, 0, TwoShards.skew, o), {})))
  {
    hide Got, Claimable;
    s' := Go(s, ReadClock(o));
    s' := Go(s', Load(o));
  }

  /** The first daemon boots, finds nothing and stands by; then the queue gets two shards. */
  lemma StandsBy() returns (s: State)
    ensures Got(s) && s == State(Members(2, 1, map[]), map[], map["a" := Standby, "b" := Down(0)])
  {
    s := BootsFirst();
    hide Got;
    s := Looks(s, "a");
    assert Claimable(s.members, 0, TwoShards.skew, "a") == [];
    var d := s.daemons["a"];
    assert d.(acquiring := Resting, engines := d.engines + d.acquiring.flocks) == Standby;
    s := Go(s, StartEngines("a"));
    assert s == State(Members(0, 0, map[]), map[], map["a" := Standby, "b" := Down(0)]);
    s := Go(s, Step.AddShards(2));
  }

  lemma BootsFirst() returns (s: State)
    ensures Got(s) && s == State(Members(0, 0, map[]), map[], map["a" := Standby, "b" := Down(0)])
  {
    assert PossibleRun(TwoShards, NoShardsYet, []) && Run(TwoShards, NoShardsYet, []) == NoShardsYet;
    assert Got(NoShardsYet);
    hide Got;
    s := Go(NoShardsYet, Boot("a"));
  }

  /** A daemon claims the next shard of its list, which nobody holds. */
  lemma Claims(s: State, o: Owner, k: Shard, rest: seq<Shard>, locked: set<Shard>) returns (s': State)
    requires Got(s) && IsUp(s, o) && s.daemons[o].clock == 0 && k !in s.members.claims
    requires s.daemons[o].acquiring == Choosing([k] + rest, locked) && |locked| < 2
    ensures Got(s') && s'.members == Granted(s.members, k, o, 0) && s'.flocks == s.flocks
    ensures var d := s.daemons[o];
      s'.daemons == s.daemons[o := d.(acquiring := Locking(k, rest, locked), lease := d.lease[k := LEASE])]
  {
    hide Got, Claimable;
    assert ([k] + rest)[0] == k && ([k] + rest)[1..] == rest;
    s' := Go(s, ReadClaimClock(o));
    s' := Go(s', WriteClaim(o));
  }

  lemma FirstLocksOne() returns (s: State)
    ensures Got(s) && s.members.claims == map[ShardKey(0) := Lease("a", LEASE)] && s.members.shards == 2
    ensures s.flocks == map[ShardKey(0) := Engine("a")] && s.daemons.Keys == {"a", "b"}
    ensures IsUp(s, "a") && s.daemons["a"].clock == 0 && s.daemons["b"] == Down(0)
    ensures s.daemons["a"].acquiring == Choosing([ShardKey(1)], {ShardKey(0)}) && !s.daemons["a"].stopping
  {
    s := StandsBy();
    hide Got, ShardKey, Claimable;
    TwoClaimable(s.members, "a");
    assert [ShardKey(0)] + [ShardKey(1)] == [ShardKey(0), ShardKey(1)];
    s := Looks(s, "a");
    s := Claims(s, "a", ShardKey(0), [ShardKey(1)], {});
    s := Go(s, TryLock("a"));
  }

  lemma SecondTakesOther() returns (s: State)
    ensures Got(s) && IsUp(s, "a") && s.daemons["a"].clock == 0 && !s.daemons["a"].stopping
    ensures s.daemons["a"].acquiring == Choosing([ShardKey(1)], {ShardKey(0)})
    ensures s.flocks == map[ShardKey(0) := Engine("a")]
    ensures s.members.claims == map[ShardKey(0) := Lease("a", LEASE), ShardKey(1) := Lease("b", LEASE)]
  {
    TwoNames();
    hide Got, ShardKey, Claimable;
    s := FirstLocksOne();
    TwoClaimable(s.members, "b");
    assert [] + [ShardKey(1)] == [ShardKey(1)] == [ShardKey(1)] + [];
    s := Go(s, Boot("b"));
    s := Looks(s, "b");
    s := Claims(s, "b", ShardKey(1), [], {});
  }

  /** Two shards, two daemons: on a standby retry the first has claimed and locked shard 0
      when the second boots and claims shard 1; refused there, the first goes back to standby
      with shard 0 claimed for half a minute, unlocked, and run by nobody. (Refused at boot
      it would exit, which leaves the claim too.) */
  lemma OrphanReached() returns (s: State, s': State)
    ensures Reachable(TwoShards, NoShardsYet, s) && Reachable(TwoShards, NoShardsYet, s')
    ensures Enabled(TwoShards, s, WriteClaim("a")) && s' == Next(TwoShards, s, WriteClaim("a"))
    ensures !Orphan(s, "a", ShardKey(0)) && Orphan(s', "a", ShardKey(0)) && ShardKey(0) !in s'.flocks
  {
    TwoNames();
    s := SecondTakesOther();
    hide ShardKey, Claimable;
    assert [ShardKey(1)][0] == ShardKey(1);
    s := Go(s, ReadClaimClock("a"));
    s' := Go(s, WriteClaim("a"));
  }

  // ---- A daemon that drains ----

  /** A claim of another daemon is about to take the entry over. */
  ghost predicate Takes(c: Config, s: State, step: Step, k: Shard)
    requires Enabled(c, s, step)
  {
    step.WriteClaim? &&
    var a := s.daemons[step.o].acquiring;
    a.shard == k && k in s.members.claims && IsLapsed(s.members.claims[k], a.now, c.skew)
  }

  ghost predicate NeverTaken(c: Config, s: State, steps: seq<Step>, k: Shard)
    requires PossibleRun(c, s, steps)
    decreases |steps|
  {
    steps == [] || (!Takes(c, s, steps[0], k) && NeverTaken(c, Next(c, s, steps[0]), steps[1..], k))
  }

  lemma NotOwnedStays(c: Config, s: State, step: Step, o: Owner, k: Shard)
    requires Enabled(c, s, step) && !Acts(step, o) && !Owns(s.members, k, o)
    ensures !Owns(Next(c, s, step).members, k, o)
  {
    hide IsShard, Claimable;
  }

  lemma {:induction false} LostStays(c: Config, s: State, steps: seq<Step>, o: Owner, k: Shard)
    requires PossibleRun(c, s, steps) && !Owns(s.members, k, o) && forall i | 0 <= i < |steps| :: !Acts(steps[i], o)
    ensures !Owns(Run(c, s, steps).members, k, o)
    decreases |steps|
  {
    hide Owns;
    if steps != [] {
      NotOwnedStays(c, s, steps[0], o, k);
      LostStays(c, Next(c, s, steps[0]), steps[1..], o, k);
    }
  }

  /** A daemon that is shutting down no longer renews. While it drains - no step of its own
      - it keeps an entry, unchanged, exactly when no other daemon's claim meets the guard
      of the takeover branch on it. */
  lemma {:induction false} DrainKeepsEntry(c: Config, s: State, steps: seq<Step>, o: Owner, k: Shard)
    requires PossibleRun(c, s, steps) && Owns(s.members, k, o) && forall i | 0 <= i < |steps| :: !Acts(steps[i], o)
    ensures Owns(Run(c, s, steps).members, k, o) <==> NeverTaken(c, s, steps, k)
    ensures NeverTaken(c, s, steps, k) ==> Run(c, s, steps).members.claims[k] == s.members.claims[k]
    decreases |steps|
  {
    if steps != [] {
      var s' := Next(c, s, steps[0]);
      if Takes(c, s, steps[0], k) {
        assert !Owns(s'.members, k, o);
        LostStays(c, s', steps[1..], o, k);
      } else {
        EntryStays(c, s, steps[0], o, k);
        hide Next;
        DrainKeepsEntry(c, s', steps[1..], o, k);
      }
    }
  }

  /** At every point of the run the clocks of running daemons are at most the margin ahead
      of o's, and o's clock has not passed the expiry. */
  ghost predicate WithinLease(c: Config, s: State, steps: seq<Step>, o: Owner, expiry: Time)
    requires PossibleRun(c, s, steps)
    decreases |steps|
  {
    && (forall p | IsUp(s, p) :: o in s.daemons && s.daemons[p].clock <= s.daemons[o].clock + c.skew)
    && o in s.daemons && s.daemons[o].clock <= expiry
    && (steps == [] || WithinLease(c, Next(c, s, steps[0]), steps[1..], o, expiry))
  }

  /** So it keeps the entry for as long as its own clock has not passed the expiry it last
      wrote. A drain longer than what is left of the lease at the stop is not covered. */
  lemma {:induction false} DrainWithinLease(c: Config, s: State, steps: seq<Step>, o: Owner, k: Shard)
    requires PossibleRun(c, s, steps) && Owns(s.members, k, o) && forall i | 0 <= i < |steps| :: !Acts(steps[i], o)
    requires ReadingsPast(s) && WithinLease(c, s, steps, o, s.members.claims[k].expiry)
    ensures Owns(Run(c, s, steps).members, k, o)
    decreases |steps|
  {
    if steps != [] {
      assert !Takes(c, s, steps[0], k);
      StepReadings(c, s, steps[0]);
      EntryStays(c, s, steps[0], o, k);
      hide Next, ReadingsPast;
      DrainWithinLease(c, Next(c, s, steps[0]), steps[1..], o, k);
    }
  }
}
