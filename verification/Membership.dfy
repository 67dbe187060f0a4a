/** Shard membership: who owns which shard of a queue directory, and until when
    (src/membership.rs, and cmd_add_shards in src/main.rs). */
module Membership {
  import opened Tasks

  type Owner = string

  type Shard = string

  const LEASE: int := 30 * SECOND

  const U32: int := 0x1_0000_0000

  datatype Claim = Lease(owner: Owner, expiry: Time)

  datatype Members = Members(shards: nat, version: nat, claims: map<Shard, Claim>)

  datatype Failure =
    | NotInitialized
    | AlreadyInitialized
    | Corrupt
    | OwnedByOther(shard: Shard, owner: Owner)
    | LeaseLost(shard: Shard)

  datatype Result<+T> = Ok(value: T) | Err(failure: Failure)

  datatype ClaimOutcome = Claimed | Renewed | TakenOver(previous: Owner)

  // ---- Shard names ----

  function Decimal(n: nat): (s: string)
    ensures s != []
  {
    if n < 10 then [DIGITS[n]] else Decimal(n / 10) + [DIGITS[n % 10]]
  }

  const DIGITS: string := "0123456789"

  function ShardKey(i: nat): Shard { "shard-" + Decimal(i) }

  lemma DigitsDistinct(a: nat, b: nat)
    requires a < 10 && b < 10 && DIGITS[a] == DIGITS[b]
    ensures a == b
  {}

  lemma {:induction false} DecimalInjective(a: nat, b: nat)
    requires Decimal(a) == Decimal(b)
    ensures a == b
  {
    var s, t := Decimal(a), Decimal(b);
    assert s[|s| - 1] == DIGITS[a % 10] && t[|t| - 1] == DIGITS[b % 10];
    DigitsDistinct(a % 10, b % 10);
    if a >= 10 && b >= 10 {
      assert s[..|s| - 1] == Decimal(a / 10) && t[..|t| - 1] == Decimal(b / 10);
      DecimalInjective(a / 10, b / 10);
    }
  }

  /** Distinct shards have distinct names. */
  lemma ShardKeyInjective(i: nat, j: nat)
    requires ShardKey(i) == ShardKey(j)
    ensures i == j
  {
    assert ShardKey(i)[6..] == Decimal(i) && ShardKey(j)[6..] == Decimal(j);
    DecimalInjective(i, j);
  }

  /** The names as they are on disk. */
  lemma ShardNames()
    ensures ShardKey(0) == "shard-0" && ShardKey(7) == "shard-7" && ShardKey(10) == "shard-10"
    ensures forall i :: 0 <= i < 10 ==> ShardKey(i) == "shard-" + ["0123456789"[i]]
    ensures forall n: nat | n >= 10 :: ShardKey(n) == ShardKey(n / 10) + ["0123456789"[n % 10]]
  {
    assert Decimal(10) == Decimal(1) + "0";
  }

  ghost predicate IsShard(m: Members, k: Shard) {
    exists i :: 0 <= i < m.shards && k == ShardKey(i)
  }

  // ---- Leases ----

  predicate IsLapsed(c: Claim, now: Time, skew: int) {
    now > c.expiry + skew
  }

  /** `SNERD_CLOCK_SKEW_MARGIN` in seconds, 5 when absent or unparsable, never negative. */
  function SkewMargin(parsed: Option<int>): (skew: int)
    ensures skew >= 0
    ensures skew == 0 <==> parsed.Some? && parsed.value <= 0
    ensures parsed.None? ==> skew == 5 * SECOND
    ensures skew > 0 && parsed.Some? ==> skew == parsed.value * SECOND
  {
    var secs := if parsed.Some? then parsed.value else 5;
    (if secs > 0 then secs else 0) * SECOND
  }

  predicate MayClaim(m: Members, k: Shard, now: Time, skew: int, owner: Owner) {
    k in m.claims ==> m.claims[k].owner == owner || IsLapsed(m.claims[k], now, skew)
  }

  /** The names of shards 0 to n - 1 that `owner` may claim, in order. */
  function ClaimableBelow(m: Members, n: nat, now: Time, skew: int, owner: Owner): seq<Shard> {
    if n == 0 then []
    else ClaimableBelow(m, n - 1, now, skew, owner)
         + if MayClaim(m, ShardKey(n - 1), now, skew, owner) then [ShardKey(n - 1)] else []
  }

  function Claimable(m: Members, now: Time, skew: int, owner: Owner): seq<Shard> {
    ClaimableBelow(m, m.shards, now, skew, owner)
  }

  lemma NotNamedBefore(n: nat)
    requires n > 0
    ensures forall i: nat | i < n - 1 :: ShardKey(i) != ShardKey(n - 1)
  {
    forall i: nat | i < n - 1 ensures ShardKey(i) != ShardKey(n - 1) {
      if ShardKey(i) == ShardKey(n - 1) { ShardKeyInjective(i, n - 1); }
    }
  }

  lemma {:induction false} ClaimableMembers(m: Members, n: nat, now: Time, skew: int, owner: Owner, k: Shard)
    ensures k in ClaimableBelow(m, n, now, skew, owner) <==>
      exists i :: 0 <= i < n && k == ShardKey(i) && MayClaim(m, k, now, skew, owner)
  {
    if n > 0 {
      ClaimableMembers(m, n - 1, now, skew, owner, k);
      hide ShardKey, MayClaim;
      var before, last := ClaimableBelow(m, n - 1, now, skew, owner), ShardKey(n - 1);
      assert k in ClaimableBelow(m, n, now, skew, owner) <==>
        k in before || (k == last && MayClaim(m, k, now, skew, owner));
      hide ClaimableBelow;
    }
  }

  lemma {:induction false} ClaimableOnce(m: Members, n: nat, now: Time, skew: int, owner: Owner)
    ensures var ks := ClaimableBelow(m, n, now, skew, owner); forall i, j | 0 <= i < j < |ks| :: ks[i] != ks[j]
  {
    if n > 0 {
      ClaimableOnce(m, n - 1, now, skew, owner);
      NotNamedBefore(n);
      ClaimableMembers(m, n - 1, now, skew, owner, ShardKey(n - 1));
      hide ShardKey, MayClaim;
    }
  }

  /** Exactly the shards of the queue that are free, the owner's own, or past their expiry by
      more than the margin; each once. */
  lemma ClaimableExact(m: Members, n: nat, now: Time, skew: int, owner: Owner)
    ensures var ks := ClaimableBelow(m, n, now, skew, owner);
      && (forall k :: k in ks <==>
            && (exists i :: 0 <= i < n && k == ShardKey(i))
            && (k !in m.claims || m.claims[k].owner == owner || now > m.claims[k].expiry + skew))
      && (forall i, j | 0 <= i < j < |ks| :: ks[i] != ks[j])
  {
    var ks := ClaimableBelow(m, n, now, skew, owner);
    ClaimableOnce(m, n, now, skew, owner);
    forall k
      ensures k in ks <==>
        && (exists i :: 0 <= i < n && k == ShardKey(i))
        && (k !in m.claims || m.claims[k].owner == owner || now > m.claims[k].expiry + skew)
    {
      ClaimableMembers(m, n, now, skew, owner, k);
    }
  }

  /** No more of them than there are shards. */
  lemma {:induction false} ClaimableCount(m: Members, n: nat, now: Time, skew: int, owner: Owner)
    ensures |ClaimableBelow(m, n, now, skew, owner)| <= n
  {
    if n > 0 { ClaimableCount(m, n - 1, now, skew, owner); }
  }

  /** What one mutation makes of the claims. */
  function ClaimOn(m: Members, k: Shard, owner: Owner, now: Time, skew: int): Result<ClaimOutcome> {
    if k !in m.claims then Ok(Claimed)
    else if m.claims[k].owner == owner then Ok(Renewed)
    else if IsLapsed(m.claims[k], now, skew) then Ok(TakenOver(m.claims[k].owner))
    else Err(OwnedByOther(k, m.claims[k].owner))
  }

  predicate Owns(m: Members, k: Shard, owner: Owner) {
    k in m.claims && m.claims[k].owner == owner
  }

  function Granted(m: Members, k: Shard, owner: Owner, now: Time): Members {
    m.(claims := m.claims[k := Lease(owner, now + LEASE)], version := m.version + 1)
  }

  function Dropped(m: Members, k: Shard): Members {
    m.(claims := m.claims - {k}, version := m.version + 1)
  }

  function Bumped(m: Members): Members {
    m.(version := m.version + 1)
  }

  /** `add-shards`: the new count in 32 bits. */
  function Grown(m: Members, n: nat): Members {
    m.(shards := (m.shards + n) % U32, version := m.version + 1)
  }

  // ---- Histories ----

  /** One successful or failed use of the file. */
  datatype Op =
    | TryClaim(shard: Shard, owner: Owner, now: Time)
    | Renew(shard: Shard, owner: Owner, now: Time)
    | Release(shard: Shard, owner: Owner)
    | Revert(shard: Shard, owner: Owner)
    | AddShards(n: nat)

  /** The file after `op`; a failed operation leaves it alone. */
  function Apply(m: Members, op: Op, skew: int): Members {
    match op
    case TryClaim(k, o, now) => if ClaimOn(m, k, o, now, skew).Ok? then Granted(m, k, o, now) else m
    case Renew(k, o, now) => if Owns(m, k, o) then Granted(m, k, o, now) else m
    case Release(k, o) => if Owns(m, k, o) then Dropped(m, k) else m
    case Revert(k, o) => if Owns(m, k, o) then Dropped(m, k) else Bumped(m)
    case AddShards(n) => Grown(m, n)
  }

  function ApplyAll(m: Members, ops: seq<Op>, skew: int): Members {
    if ops == [] then m else Apply(ApplyAll(m, ops[..|ops| - 1], skew), ops[|ops| - 1], skew)
  }

  /** Another owner's entry changes in one way only: a claim that takes it over after it
      has lapsed on the claimer's clock. */
  lemma OthersUntouched(m: Members, op: Op, skew: int, k: Shard)
    requires k in m.claims && (op.AddShards? || op.owner != m.claims[k].owner)
    ensures var m' := Apply(m, op, skew);
      || (k in m'.claims && m'.claims[k] == m.claims[k])
      || (op.TryClaim? && op.shard == k && IsLapsed(m.claims[k], op.now, skew)
          && ClaimOn(m, k, op.owner, op.now, skew) == Ok(TakenOver(m.claims[k].owner))
          && k in m'.claims && m'.claims[k] == Lease(op.owner, op.now + LEASE))
  {}

  /** The count never falls exactly when it fits in 32 bits. */
  lemma ShardCountNeverFalls(m: Members, n: nat)
    requires m.shards < U32 && n < U32
    ensures Grown(m, n).shards >= m.shards <==> m.shards + n < U32
  {}

  lemma VersionMoves(m: Members, op: Op, skew: int)
    ensures Apply(m, op, skew) == m || Apply(m, op, skew).version > m.version
  {}

  /** In every history the version tells the contents: two points with the same version
      have the same membership. */
  lemma {:induction false} VersionIdentifies(m: Members, ops: seq<Op>, skew: int, i: nat, j: nat)
    requires i <= j <= |ops|
    ensures ApplyAll(m, ops[..i], skew).version <= ApplyAll(m, ops[..j], skew).version
    ensures ApplyAll(m, ops[..i], skew).version == ApplyAll(m, ops[..j], skew).version ==>
      ApplyAll(m, ops[..i], skew) == ApplyAll(m, ops[..j], skew)
    decreases j
  {
    if i < j {
      assert ops[..j][..j - 1] == ops[..j - 1];
      VersionIdentifies(m, ops, skew, i, j - 1);
      VersionMoves(ApplyAll(m, ops[..j - 1], skew), ops[j - 1], skew);
      hide Apply;
    }
  }

  // ---- The store ----

  datatype File = Missing | Unparsable | Present(members: Members)

  class MembershipStore {
    var file: File

    constructor (onDisk: File)
      ensures file == onDisk
    {
      file := onDisk;
    }

    method Init(shards: nat) returns (r: Result<()>)
      modifies this
      ensures old(file).Missing? ==> r == Ok(()) && file == Present(Members(shards, 0, map[]))
      ensures !old(file).Missing? ==> r == Err(AlreadyInitialized) && file == old(file)
    {
      if !file.Missing? {
        return Err(AlreadyInitialized);
      }
      file := Present(Members(shards, 0, map[]));
      r := Ok(());
    }

    method Load() returns (r: Result<Members>)
      ensures r == match file
                   case Present(m) => Ok(m)
                   case Missing => Err(NotInitialized)
                   case Unparsable => Err(Corrupt)
    {
      match file {
        case Present(m) => r := Ok(m);
        case Missing => r := Err(NotInitialized);
        case Unparsable => r := Err(Corrupt);
      }
    }

    method Claim(k: Shard, owner: Owner, now: Time, skew: int) returns (r: Result<ClaimOutcome>)
      modifies this
      ensures old(file).Present? ==>
        var m := old(file.members);
        r.Ok? <==> k !in m.claims || m.claims[k].owner == owner || now > m.claims[k].expiry + skew
      ensures old(file).Present? && r.Ok? ==>
        && file.Present? && file.members.version == old(file.members).version + 1
        && file.members.claims == old(file.members).claims[k := Lease(owner, now + 30 * SECOND)]
      ensures old(file).Present? ==>
        r == ClaimOn(old(file.members), k, owner, now, skew) &&
        file == Present(Apply(old(file.members), TryClaim(k, owner, now), skew))
      ensures !old(file).Present? ==> r.Err? && file == old(file)
    {
      var loaded := Load();
      if loaded.Err? {
        return Err(loaded.failure);
      }
      var m := loaded.value;
      var expiry := now + LEASE;
      if k !in m.claims {
        r := Ok(Claimed);
      } else if m.claims[k].owner == owner {
        r := Ok(Renewed);
      } else if IsLapsed(m.claims[k], now, skew) {
        r := Ok(TakenOver(m.claims[k].owner));
      } else {
        return Err(OwnedByOther(k, m.claims[k].owner));
      }
      file := Present(m.(claims := m.claims[k := Lease(owner, expiry)], version := m.version + 1));
    }

    method RevertClaim(k: Shard, owner: Owner) returns (r: Result<()>)
      modifies this
      ensures old(file).Present? ==> r == Ok(()) && file == Present(Apply(old(file.members), Revert(k, owner), 0))
      ensures old(file).Present? ==>
        var claims := old(file).members.claims;
        && file.members.claims == (if k in claims && claims[k].owner == owner then claims - {k} else claims)
        && file.members.version == old(file).members.version + 1
      ensures !old(file).Present? ==> r.Err? && file == old(file)
    {
      var loaded := Load();
      if loaded.Err? {
        return Err(loaded.failure);
      }
      var m := loaded.value;
      if k in m.claims && m.claims[k].owner == owner {
        m := m.(claims := m.claims - {k});
      }
      file := Present(m.(version := m.version + 1));
      r := Ok(());
    }

    method RenewLease(k: Shard, owner: Owner, now: Time) returns (r: Result<()>)
      modifies this
      ensures old(file).Present? ==>
        r == (if Owns(old(file.members), k, owner) then Ok(()) else Err(LeaseLost(k))) &&
        file == Present(Apply(old(file.members), Renew(k, owner, now), 0))
      ensures old(file).Present? && r.Ok? ==>
        && k in old(file.members).claims && old(file.members).claims[k].owner == owner
        && file.members.claims == old(file.members).claims[k := Lease(owner, now + 30 * SECOND)]
      ensures !old(file).Present? ==> r.Err? && !r.failure.LeaseLost? && file == old(file)
    {
      var loaded := Load();
      if loaded.Err? {
        return Err(loaded.failure);
      }
      var m := loaded.value;
      if k in m.claims && m.claims[k].owner == owner {
        file := Present(m.(claims := m.claims[k := m.claims[k].(expiry := now + LEASE)], version := m.version + 1));
        return Ok(());
      }
      r := Err(LeaseLost(k));
    }

    method ReleaseClaim(k: Shard, owner: Owner) returns (r: Result<()>)
      modifies this
      ensures old(file).Present? ==>
        r == (if Owns(old(file.members), k, owner) then Ok(()) else Err(LeaseLost(k))) &&
        file == Present(Apply(old(file.members), Release(k, owner), 0))
      ensures old(file).Present? && r.Ok? ==>
        && k in old(file.members).claims && old(file.members).claims[k].owner == owner
        && file.members.claims == old(file.members).claims - {k}
      ensures !old(file).Present? ==> r.Err? && file == old(file)
    {
      var loaded := Load();
      if loaded.Err? {
        return Err(loaded.failure);
      }
      var m := loaded.value;
      if k in m.claims && m.claims[k].owner == owner {
        file := Present(m.(claims := m.claims - {k}, version := m.version + 1));
        return Ok(());
      }
      r := Err(LeaseLost(k));
    }

    /** `snerdmq add-shards` in a release build, where the count wraps. */
    method GrowShards(n: nat) returns (r: Result<()>)
      modifies this
      ensures old(file).Present? ==> r == Ok(()) && file == Present(Apply(old(file.members), AddShards(n), 0))
      ensures old(file).Present? ==>
        && file.members.claims == old(file).members.claims && file.members.version == old(file).members.version + 1
        && (old(file).members.shards + n < 0x1_0000_0000 ==> file.members.shards == old(file).members.shards + n)
      ensures !old(file).Present? ==> r.Err? && file == old(file)
    {
      var loaded := Load();
      if loaded.Err? {
        return Err(loaded.failure);
      }
      var m := loaded.value;
      file := Present(m.(shards := (m.shards + n) % U32, version := m.version + 1));
      r := Ok(());
    }
  }
}
