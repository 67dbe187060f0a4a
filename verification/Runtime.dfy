/** How one daemon takes its shards (src/main.rs, Runtime::acquire_shards, over
    src/membership.rs and try_lock_shard of src/sharding.rs). */
module Runtime {
  import opened Tasks
  import opened Membership

  /** The lock files of the shard directories: an exclusive lock each. */
  class ShardLocks {
    var holders: map<Shard, Owner>

    constructor ()
      ensures holders == map[]
    {
      holders := map[];
    }

    method TryLock(k: Shard, owner: Owner) returns (ok: bool)
      modifies this
      ensures ok == (k !in old(holders))
      ensures holders == if ok then old(holders)[k := owner] else old(holders)
    {
      ok := k !in holders;
      if ok {
        holders := holders[k := owner];
      }
    }

    /** Dropping the handles of the locks named in `ks`. */
    method Drop(ks: seq<Shard>)
      modifies this
      ensures holders == map k | k in old(holders) && k !in ks :: old(holders)[k]
    {
      holders := map k | k in holders && k !in ks :: holders[k];
    }
  }

  /** The entries after trying the shards in `tried`: those in `claimed` are owned, the
      others tried are not, and nothing outside `tried` has changed. */
  ghost predicate Entered(m: Members, m': Members, tried: set<Shard>, claimed: set<Shard>, owner: Owner) {
    && (forall k | k in tried :: Owns(m', k, owner) <==> k in claimed)
    && (forall k | k !in tried :: k in m'.claims <==> k in m.claims)
    && (forall k | k !in tried && k in m.claims :: m'.claims[k] == m.claims[k])
  }

  /** Exactly those that were not locked by anyone are claimed, and newly locked. */
  ghost predicate Acquired(m: Members, m': Members, held: map<Shard, Owner>, held': map<Shard, Owner>,
                           tried: set<Shard>, claimed: set<Shard>, owner: Owner)
  {
    && claimed == tried - held.Keys && Entered(m, m', tried, claimed, owner)
    && held'.Keys == held.Keys + claimed
    && (forall k | k in held' :: held'[k] == if k in held then held[k] else owner)
  }

  lemma EnteredOneMore(m: Members, m1: Members, m2: Members, tried: set<Shard>, claimed: set<Shard>, owner: Owner,
                       k: Shard, taken: bool)
    requires Entered(m, m1, tried, claimed, owner) && k !in tried && k !in claimed
    requires !taken ==> m2.claims == m1.claims - {k}
    requires taken ==> Owns(m2, k, owner) && m2.claims == m1.claims[k := m2.claims[k]]
    ensures Entered(m, m2, tried + {k}, if taken then claimed + {k} else claimed, owner)
  {}

  lemma AcquiredOneMore(m: Members, m1: Members, m2: Members, held: map<Shard, Owner>, held1: map<Shard, Owner>,
                        held2: map<Shard, Owner>, tried: set<Shard>, claimed: set<Shard>, owner: Owner, k: Shard)
    requires Acquired(m, m1, held, held1, tried, claimed, owner) && k !in tried
    requires k in held1 ==> held2 == held1 && m2.claims == m1.claims - {k}
    requires k !in held1 ==> held2 == held1[k := owner] && Owns(m2, k, owner)
    requires k !in held1 ==> m2.claims == m1.claims[k := m2.claims[k]]
    ensures Acquired(m, m2, held, held2, tried + {k}, if k in held1 then claimed else claimed + {k}, owner)
  {
    EnteredOneMore(m, m1, m2, tried, claimed, owner, k, k !in held1);
    hide Entered, Owns;
  }

  lemma AcquiredNone(m: Members, held: map<Shard, Owner>, owner: Owner)
    ensures Acquired(m, m, held, held, {}, {}, owner)
  {}

  lemma GivenUp(m: Members, m': Members, held: map<Shard, Owner>, held': map<Shard, Owner>,
                tried: set<Shard>, claimed: set<Shard>, owner: Owner)
    requires Acquired(m, m', held, held', tried, claimed, owner)
    ensures (map k | k in held' && k !in claimed :: held'[k]) == held
  {}

  lemma CandidatesDistinct(m: Members, now: Time, skew: int, owner: Owner)
    ensures var ks := Claimable(m, now, skew, owner); forall i, j | 0 <= i < j < |ks| :: ks[i] != ks[j]
  {
    ClaimableExact(m, m.shards, now, skew, owner);
  }

  /** The elements of `ks`. */
  function Elements(ks: seq<Shard>): set<Shard> {
    set k | k in ks
  }

  lemma OneMoreElement(ks: seq<Shard>, i: nat)
    requires i < |ks|
    ensures Elements(ks[..i + 1]) == Elements(ks[..i]) + {ks[i]}
  {}

  lemma {:induction false} ElementsCount(ks: seq<Shard>)
    ensures |Elements(ks)| <= |ks|
    ensures (forall i, j | 0 <= i < j < |ks| :: ks[i] != ks[j]) ==> |Elements(ks)| == |ks|
  {
    if ks != [] {
      var n := |ks| - 1;
      ElementsCount(ks[..n]);
      OneMoreElement(ks, n);
      assert ks[..n + 1] == ks;
    }
  }

  lemma ElementsIn(ks: seq<Shard>, others: seq<Shard>)
    requires Elements(ks) == Elements(others)
    ensures forall k | k in ks :: k in others
  {
    forall k | k in ks ensures k in others { assert k in Elements(ks); }
  }

  lemma NoElements()
    ensures Elements([]) == {}
  {}

  lemma NotYetTried(ks: seq<Shard>, i: nat)
    requires i < |ks| && forall j, k | 0 <= j < k < |ks| :: ks[j] != ks[k]
    ensures ks[i] !in Elements(ks[..i])
  {}

  /** What a heartbeat over `shards` makes of the claims and the paused set: the unpaused
      shards still owned are renewed, the unpaused ones lost are paused. */
  ghost predicate Beaten(m: Members, m': Members, paused: set<Shard>, paused': set<Shard>,
                         shards: set<Shard>, owner: Owner, clock: Shard -> Time)
  {
    && (forall k :: k in paused' <==> k in paused || (k in shards && !Owns(m, k, owner)))
    && (forall k :: k in m'.claims <==> k in m.claims)
    && (forall k | k in m.claims ::
          m'.claims[k] == if k in shards && k !in paused && Owns(m, k, owner) then Lease(owner, clock(k) + LEASE)
                          else m.claims[k])
  }

  /** The claims without `owner`'s on `shards`. */
  function GivenBack(m: Members, shards: set<Shard>, owner: Owner): map<Shard, Claim> {
    map k | k in m.claims && !(k in shards && Owns(m, k, owner)) :: m.claims[k]
  }

  class Daemon {
    const store: MembershipStore
    const locks: ShardLocks
    const owner: Owner
    const maxShards: nat
    const skew: nat
    var engines: seq<Shard>
    var paused: set<Shard>
    var shuttingDown: bool

    constructor (store: MembershipStore, locks: ShardLocks, owner: Owner, maxShards: nat, skew: nat)
      ensures this.store == store && this.locks == locks && this.owner == owner
      ensures this.maxShards == maxShards && this.skew == skew
      ensures engines == [] && paused == {} && !shuttingDown
    {
      this.store, this.locks, this.owner, this.maxShards, this.skew := store, locks, owner, maxShards, skew;
      engines, paused, shuttingDown := [], {}, false;
    }

    /** Claim, then lock; a refused lock takes the claim back. */
    method TakeShard(k: Shard, at: Time) returns (r: Result<bool>)
      requires store.file.Present?
      modifies store, locks
      ensures store.file.Present?
      ensures r.Err? ==> store.file == old(store.file) && locks.holders == old(locks.holders)
      ensures r.Err? <==> ClaimOn(old(store.file.members), k, owner, at, skew).Err?
      ensures r.Ok? ==> r.value == (k !in old(locks.holders))
      ensures r.Ok? ==> locks.holders == if r.value then old(locks.holders)[k := owner] else old(locks.holders)
      ensures r.Ok? && r.value ==>
        store.file.members.claims == old(store.file.members).claims[k := Lease(owner, at + LEASE)]
      ensures r.Ok? && !r.value ==> store.file.members.claims == old(store.file.members).claims - {k}
    {
      var outcome := store.Claim(k, owner, at, skew);
      if outcome.Err? {
        return Err(outcome.failure);
      }
      var locked := locks.TryLock(k, owner);
      if !locked {
        var reverted := store.RevertClaim(k, owner);
      }
      r := Ok(locked);
    }

    /** One turn of the loop over the candidates: `m` and `held` are the membership and the
        locks as they were before the loop. A refused claim gives the locks back. */
    method TryNext(shard: Shard, at: Time, claimed: seq<Shard>,
                   ghost m: Members, ghost held: map<Shard, Owner>, ghost tried: set<Shard>)
      returns (r: Result<seq<Shard>>)
      requires store.file.Present? && shard !in tried
      requires Acquired(m, store.file.members, held, locks.holders, tried, Elements(claimed), owner)
      modifies store, locks
      ensures store.file.Present?
      ensures r.Err? ==> locks.holders == held && store.file == old(store.file)
      ensures r.Err? ==> ClaimOn(store.file.members, shard, owner, at, skew).Err?
      ensures r.Ok? ==> r.value == claimed || (shard !in claimed && r.value == claimed + [shard])
      ensures r.Ok? ==>
        Acquired(m, store.file.members, held, locks.holders, tried + {shard}, Elements(r.value), owner)
    {
      ghost var m1, held1 := store.file.members, locks.holders;
      var taken := TakeShard(shard, at);
      if taken.Err? {
        GivenUp(m, m1, held, held1, tried, Elements(claimed), owner);
        locks.Drop(claimed);
        assert locks.holders == map k | k in held1 && k !in Elements(claimed) :: held1[k];
        return Err(taken.failure);
      }
      AcquiredOneMore(m, m1, store.file.members, held, held1, locks.holders, tried, Elements(claimed), owner, shard);
      assert Elements(claimed + [shard]) == Elements(claimed) + {shard};
      r := Ok(if taken.value then claimed + [shard] else claimed);
    }

    /** The first n candidates were tried, all of them unless enough were locked. */
    ghost predicate TookSome(m: Members, m': Members, held: map<Shard, Owner>, held': map<Shard, Owner>,
                             ks: seq<Shard>, claimed: seq<Shard>)
    {
      exists n :: 0 <= n <= |ks| && (|claimed| < maxShards ==> n == |ks|)
        && Acquired(m, m', held, held', Elements(ks[..n]), Elements(claimed), owner)
    }

    lemma Takes(m: Members, m': Members, held: map<Shard, Owner>, held': map<Shard, Owner>, ks: seq<Shard>, n: nat,
                claimed: seq<Shard>)
      requires n <= |ks| && (|claimed| < maxShards ==> n == |ks|)
      requires Acquired(m, m', held, held', Elements(ks[..n]), Elements(claimed), owner)
      ensures TookSome(m, m', held, held', ks, claimed)
    {}

    /** Some candidate's claim was refused after the ones before it were tried: those of
        them that nobody had locked stay claimed. */
    ghost predicate GaveUp(m: Members, m': Members, held: map<Shard, Owner>, ks: seq<Shard>, clock: Shard -> Time) {
      exists n :: 0 <= n < |ks| && ClaimOn(m', ks[n], owner, clock(ks[n]), skew).Err?
        && Entered(m, m', Elements(ks[..n]), Elements(ks[..n]) - held.Keys, owner)
    }

    lemma GivesUp(m: Members, m': Members, held: map<Shard, Owner>, held': map<Shard, Owner>, ks: seq<Shard>, n: nat,
                  claimed: set<Shard>, clock: Shard -> Time)
      requires n < |ks| && ClaimOn(m', ks[n], owner, clock(ks[n]), skew).Err?
      requires Acquired(m, m', held, held', Elements(ks[..n]), claimed, owner)
      ensures GaveUp(m, m', held, ks, clock)
    {}

    /** Claims candidates in order until enough are locked. A refused claim gives everything
        up: the locks taken so far, though not their claims. `clock(k)` is the clock read
        for the claim on shard k. */
    method AcquireShards(now: Time, clock: Shard -> Time) returns (r: Result<seq<Shard>>)
      modifies store, locks
      ensures !old(store.file).Present? ==> r.Err? && store.file == old(store.file)
      ensures r.Err? ==> locks.holders == old(locks.holders)
      ensures old(store.file).Present? ==> store.file.Present?
      ensures old(store.file).Present? && r.Err? ==>
        GaveUp(old(store.file.members), store.file.members, old(locks.holders),
               Claimable(old(store.file.members), now, skew, owner), clock)
      ensures old(store.file).Present? && r.Ok? ==> |r.value| <= maxShards
      ensures old(store.file).Present? && r.Ok? ==>
        TookSome(old(store.file.members), store.file.members, old(locks.holders), locks.holders,
                 Claimable(old(store.file.members), now, skew, owner), r.value)
      ensures old(store.file).Present? && r.Ok? ==> forall i, j | 0 <= i < j < |r.value| :: r.value[i] != r.value[j]
    {
      hide Claimable, Acquired, ClaimOn, Entered, GaveUp, TookSome, Elements;
      var loaded := store.Load();
      if loaded.Err? {
        return Err(loaded.failure);
      }
      var candidates := Claimable(loaded.value, now, skew, owner);
      CandidatesDistinct(loaded.value, now, skew, owner);
      var claimed: seq<Shard> := [];
      AcquiredNone(loaded.value, locks.holders, owner);
      NoElements();
      assert candidates[..0] == [];
      var i := 0;
      while i < |candidates| && |claimed| < maxShards
        invariant 0 <= i <= |candidates| && |claimed| <= maxShards && store.file.Present?
        invariant Acquired(loaded.value, store.file.members, old(locks.holders), locks.holders,
                           Elements(candidates[..i]), Elements(claimed), owner)
        invariant forall i, j | 0 <= i < j < |claimed| :: claimed[i] != claimed[j]
      {
        var shard := candidates[i];
        ghost var held1 := locks.holders;
        NotYetTried(candidates, i);
        var next := TryNext(shard, clock(shard), claimed, loaded.value, old(locks.holders), Elements(candidates[..i]));
        if next.Err? {
          GivesUp(loaded.value, store.file.members, old(locks.holders), held1, candidates, i, Elements(claimed), clock);
          return next;
        }
        OneMoreElement(candidates, i);
        claimed := next.value;
        i := i + 1;
      }
      Takes(loaded.value, store.file.members, old(locks.holders), locks.holders, candidates, i, claimed);
      r := Ok(claimed);
    }

    ghost predicate RunsUnderLocks()
      reads this`engines, locks
    {
      forall k | k in engines :: k in locks.holders && locks.holders[k] == owner
    }

    /** Every shard's entry is free, the daemon's own, or past its expiry by more than the
        margin, at the reading taken for the list and at the one taken for its claim. */
    ghost predicate AllTakeable(m: Members, now: Time, clock: Shard -> Time) {
      forall i, k | 0 <= i < m.shards && k == ShardKey(i) && k in m.claims ::
        || m.claims[k].owner == owner
        || (now > m.claims[k].expiry + skew && clock(k) > m.claims[k].expiry + skew)
    }

    /** A shard not yet tried still has its entry, which may be taken. */
    lemma NotRefused(m: Members, m': Members, tried: set<Shard>, claimed: set<Shard>, k: Shard,
                     now: Time, clock: Shard -> Time)
      requires AllTakeable(m, now, clock) && Entered(m, m', tried, claimed, owner) && k !in tried && IsShard(m, k)
      ensures ClaimOn(m', k, owner, clock(k), skew).Ok?
    {
      var i :| 0 <= i < m.shards && k == ShardKey(i);
    }

    lemma NeverRefused(m: Members, m': Members, held: map<Shard, Owner>, now: Time, clock: Shard -> Time)
      requires AllTakeable(m, now, clock)
      ensures !GaveUp(m, m', held, Claimable(m, now, skew, owner), clock)
    {
      var ks := Claimable(m, now, skew, owner);
      ClaimableExact(m, m.shards, now, skew, owner);
      assert forall k | k in ks :: IsShard(m, k);
      hide Claimable, ShardKey, IsShard, AllTakeable, ClaimOn, Entered, Elements;
      forall n | 0 <= n < |ks| && Entered(m, m', Elements(ks[..n]), Elements(ks[..n]) - held.Keys, owner)
        ensures ClaimOn(m', ks[n], owner, clock(ks[n]), skew).Ok?
      {
        NotYetTried(ks, n);
        NotRefused(m, m', Elements(ks[..n]), Elements(ks[..n]) - held.Keys, ks[n], now, clock);
      }
    }

    lemma EveryShardListed(m: Members, now: Time, clock: Shard -> Time)
      requires AllTakeable(m, now, clock)
      ensures forall i | 0 <= i < m.shards :: ShardKey(i) in Claimable(m, now, skew, owner)
      ensures |Claimable(m, now, skew, owner)| <= m.shards
    {
      ClaimableExact(m, m.shards, now, skew, owner);
      ClaimableCount(m, m.shards, now, skew, owner);
      hide ShardKey;
    }

    lemma TakesAll(m: Members, m': Members, held': map<Shard, Owner>, ks: seq<Shard>, claimed: seq<Shard>)
      requires TookSome(m, m', map[], held', ks, claimed) && |ks| <= maxShards
      requires forall i, j | 0 <= i < j < |claimed| :: claimed[i] != claimed[j]
      ensures Elements(claimed) == Elements(ks)
    {
      var n :| 0 <= n <= |ks| && (|claimed| < maxShards ==> n == |ks|)
        && Acquired(m, m', map[], held', Elements(ks[..n]), Elements(claimed), owner);
      AllTriedClaimed(m, m', held', Elements(ks[..n]), Elements(claimed));
      hide Acquired, TookSome, Elements;
      ElementsCount(claimed);
      ElementsCount(ks[..n]);
      assert ks[..|ks|] == ks;
    }

    lemma AllTriedClaimed(m: Members, m': Members, held': map<Shard, Owner>, tried: set<Shard>, claimed: set<Shard>)
      requires Acquired(m, m', map[], held', tried, claimed, owner)
      ensures claimed == tried
    {}

    /** No lock is held, the daemon may run every shard, and every entry may be taken. */
    ghost predicate AllFor(m: Members, held: map<Shard, Owner>, now: Time, clock: Shard -> Time) {
      held == map[] && m.shards <= maxShards && AllTakeable(m, now, clock)
    }

    /** One try of a daemon with no engines, at start and on standby: what it locks it runs,
        and it runs every claimable shard nobody has locked, unless it has its fill or a
        claim is refused. When the owners of all shards have been gone for longer than the
        lease and the margin, no lock is held and it may take that many, it runs them all. */
    method StandbyTick(now: Time, clock: Shard -> Time)
      requires RunsUnderLocks()
      modifies this`engines, store, locks
      ensures RunsUnderLocks()
      ensures old(shuttingDown) || old(engines) != [] ==>
        engines == old(engines) && store.file == old(store.file) && locks.holders == old(locks.holders)
      ensures engines != old(engines) ==> store.file.Present? && |engines| <= maxShards
      ensures engines != old(engines) ==>
        forall k | k in engines :: k !in old(locks.holders) && Owns(store.file.members, k, owner)
      ensures !old(shuttingDown) && old(engines) == [] && old(store.file).Present? ==> store.file.Present?
      ensures !old(shuttingDown) && old(engines) == [] && old(store.file).Present? ==>
        var ks := Claimable(old(store.file.members), now, skew, owner);
        || |engines| == maxShards
        || GaveUp(old(store.file.members), store.file.members, old(locks.holders), ks, clock)
        || forall k | k in ks && k !in old(locks.holders) :: k in engines
      ensures !old(shuttingDown) && old(engines) == [] && old(store.file).Present? ==>
        AllFor(old(store.file).members, old(locks.holders), now, clock) ==>
        forall i | 0 <= i < old(store.file).members.shards :: ShardKey(i) in engines
    {
      if shuttingDown || engines != [] {
        return;
      }
      var claimed := AcquireShards(now, clock);
      if claimed.Ok? {
        assert Elements(engines + claimed.value) == Elements(claimed.value);
        engines := engines + claimed.value;
      }
      hide Claimable, GaveUp, ClaimOn;
      ghost var present := old(store.file).Present?;
      if present && claimed.Ok? && |engines| < maxShards {
        ghost var ks := Claimable(old(store.file.members), now, skew, owner);
        assert ks[..|ks|] == ks;
        forall k | k in ks && k !in old(locks.holders) ensures k in engines {
          assert k in Elements(ks);
        }
      }
      if present && AllFor(old(store.file).members, old(locks.holders), now, clock) {
        ghost var m := old(store.file).members;
        EveryShardListed(m, now, clock);
        NeverRefused(m, store.file.members, map[], now, clock);
        TakesAll(m, store.file.members, locks.holders, Claimable(m, now, skew, owner), claimed.value);
        ElementsIn(Claimable(m, now, skew, owner), claimed.value);
      }
    }

    /** One tick of the heartbeat: every engine not yet paused renews its lease at its own
        clock reading, and is paused when the lease is no longer its owner's. */
    method Heartbeat(clock: Shard -> Time)
      modifies this`paused, store
      ensures old(shuttingDown) || !old(store.file).Present? ==> paused == old(paused) && store.file == old(store.file)
      ensures old(store.file).Present? ==> store.file.Present?
      ensures !old(shuttingDown) && old(store.file).Present? ==>
        Beaten(old(store.file.members), store.file.members, old(paused), paused, Elements(engines), owner, clock)
    {
      if shuttingDown {
        return;
      }
      ghost var m, held := if store.file.Present? then store.file.members else Members(0, 0, map[]), paused;
      for i := 0 to |engines|
        invariant old(store.file).Present? == store.file.Present?
        invariant !store.file.Present? ==> paused == old(paused) && store.file == old(store.file)
        invariant store.file.Present? ==>
          Beaten(m, store.file.members, held, paused, Elements(engines[..i]), owner, clock)
      {
        assert Elements(engines[..i + 1]) == Elements(engines[..i]) + {engines[i]};
        if engines[i] !in paused {
          var renewed := store.RenewLease(engines[i], owner, clock(engines[i]));
          if renewed.Err? && renewed.failure.LeaseLost? {
            paused := paused + {engines[i]};
          }
        }
      }
      assert engines[..|engines|] == engines;
    }

    /** Pause everything, then give every claim back; the drain in between is not part of
        this method. */
    method ShutDown()
      modifies this`paused, this`shuttingDown, store
      ensures shuttingDown && paused == old(paused) + Elements(engines)
      ensures !old(store.file).Present? ==> store.file == old(store.file)
      ensures old(store.file).Present? ==> store.file.Present?
      ensures old(store.file).Present? ==>
        store.file.members.claims == GivenBack(old(store.file.members), Elements(engines), owner)
    {
      shuttingDown := true;
      paused := paused + Elements(engines);
      for i := 0 to |engines|
        invariant shuttingDown && paused == old(paused) + Elements(engines)
        invariant old(store.file).Present? == store.file.Present?
        invariant !store.file.Present? ==> store.file == old(store.file)
        invariant store.file.Present? ==>
          store.file.members.claims == GivenBack(old(store.file.members), Elements(engines[..i]), owner)
      {
        assert Elements(engines[..i + 1]) == Elements(engines[..i]) + {engines[i]};
        var released := store.ReleaseClaim(engines[i], owner);
      }
      assert engines[..|engines|] == engines;
    }
  }
}
