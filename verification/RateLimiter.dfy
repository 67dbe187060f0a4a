/** The rate limiter: a fixed-window counter per group, kept in a file
    (src/rate_limiter.rs). */
module RateLimiting {
  import opened Tasks

  datatype Window = Window(count: Int32, start: Time)

  type Limits = map<string, Window>

  /** Whole seconds of a span, dropping the fraction toward zero. */
  function NumSeconds(span: int): int {
    if span >= 0 then span / SECOND else -((-span) / SECOND)
  }

  /** The window a call at `now` counts against. */
  function Current(w: Option<Window>, now: Time): Window {
    if w.None? || NumSeconds(now - w.value.start) >= 60 then Window(0, now) else w.value
  }

  datatype Verdict = Verdict(allow: bool, window: Window)

  function Check(w: Option<Window>, limit: Int32, now: Time): Verdict {
    var c := Current(w, now);
    if c.count < limit then Verdict(true, c.(count := c.count + 1)) else Verdict(false, c)
  }

  function Lookup(limits: Limits, group: string): Option<Window> {
    if group in limits then Some(limits[group]) else None
  }

  class RateLimiter {
    /** The file's contents; None when it is missing, empty or unparsable. */
    var stored: Option<Limits>

    constructor (onDisk: Option<Limits>)
      ensures stored == onDisk
    {
      stored := onDisk;
    }

    function Limits(): Limits
      reads this
    {
      if stored.Some? then stored.value else map[]
    }

    method CheckAndIncrement(group: string, limit: Int32, now: Time) returns (allow: bool)
      modifies this
      ensures stored.Some?
      ensures var v := Check(Lookup(old(Limits()), group), limit, now);
        allow == v.allow && Limits() == old(Limits())[group := v.window]
    {
      var limits := if stored.Some? then stored.value else map[];
      allow := false;
      var window := if group in limits then limits[group] else Window(0, now);
      if NumSeconds(now - window.start) >= 60 {
        window := Window(0, now);
      }
      if window.count < limit {
        window := window.(count := window.count + 1);
        allow := true;
      }
      limits := limits[group := window];
      stored := Some(limits);
    }
  }

  // ---- Runs of calls on one group ----

  datatype Call = Call(at: Time, limit: Int32)

  const MINUTE: int := 60 * SECOND

  /** The window after `calls`, from no window. */
  function After(calls: seq<Call>): Option<Window> {
    if calls == [] then None
    else var n := |calls| - 1; Some(Check(After(calls[..n]), calls[n].limit, calls[n].at).window)
  }

  predicate Allowed(calls: seq<Call>, i: nat)
    requires i < |calls|
  {
    Check(After(calls[..i]), calls[i].limit, calls[i].at).allow
  }

  /** How many allowed calls fall in the half-open minute from `from`. */
  function AllowedIn(calls: seq<Call>, from: Time): nat {
    if calls == [] then 0
    else
      var n := |calls| - 1;
      AllowedIn(calls[..n], from) + if Allowed(calls, n) && from <= calls[n].at < from + MINUTE then 1 else 0
  }

  ghost predicate Ordered(calls: seq<Call>) {
    forall i, j | 0 <= i < j < |calls| :: calls[i].at <= calls[j].at
  }

  ghost predicate LimitsAtMost(calls: seq<Call>, limit: int) {
    forall i | 0 <= i < |calls| :: calls[i].limit <= limit
  }

  ghost predicate LimitsEqual(calls: seq<Call>, limit: int) {
    forall i | 0 <= i < |calls| :: calls[i].limit == limit
  }

  /** The program's reset test is a full minute, in whole seconds or not. */
  lemma ResetAfterMinute(w: Window, now: Time)
    ensures Current(Some(w), now) == if now - w.start >= MINUTE then Window(0, now) else w
  {}

  // ---- The limiter as a fixed-window counter ----

  /** The call that opened the window open after `calls`: the first, or the first a full
      minute or more after the one that opened the window before. */
  function Opener(calls: seq<Call>): (o: nat)
    requires calls != []
    ensures o < |calls|
  {
    var n := |calls| - 1;
    if n == 0 then 0
    else var o := Opener(calls[..n]); if calls[n].at - calls[o].at >= 60 * SECOND then n else o
  }

  /** How many of the calls from number `o` on are allowed. */
  function AllowedFrom(calls: seq<Call>, o: nat): nat {
    if calls == [] then 0
    else
      var n := |calls| - 1;
      AllowedFrom(calls[..n], o) + if o <= n && Allowed(calls, n) then 1 else 0
  }

  lemma {:induction false} NoneFromEnd(calls: seq<Call>, o: nat)
    requires |calls| <= o
    ensures AllowedFrom(calls, o) == 0
  {
    if calls != [] { NoneFromEnd(calls[..|calls| - 1], o); }
  }

  /** For calls at any times, the clock going back included: the window kept is the opener's
      with the number of calls allowed since, and a call is allowed if and only if fewer
      than its limit have been allowed since the opener of its window. */
  lemma {:induction false} CountsSinceOpener(calls: seq<Call>)
    requires calls != []
    ensures var n, o := |calls| - 1, Opener(calls);
      && (Allowed(calls, n) <==> AllowedFrom(calls[..n], o) < calls[n].limit)
      && After(calls).Some? && After(calls).value.start == calls[o].at
      && After(calls).value.count == AllowedFrom(calls, o)
  {
    var n := |calls| - 1;
    if n == 0 {
      assert calls[..0] == [];
    } else {
      CountsSinceOpener(calls[..n]);
      ResetAfterMinute(After(calls[..n]).value, calls[n].at);
      NoneFromEnd(calls[..n], n);
    }
  }

  /** The open window started no later than the last call and holds a legal count. */
  lemma {:induction false} WindowSound(calls: seq<Call>, limit: nat)
    requires calls != [] && Ordered(calls) && LimitsAtMost(calls, limit)
    ensures var w := After(calls).value;
      0 <= w.count <= limit && w.start <= calls[|calls| - 1].at && calls[|calls| - 1].at - w.start < MINUTE
  {
    var n := |calls| - 1;
    if n > 0 { WindowSound(calls[..n], limit); }
  }

  /** Calls of the minute counted so far, by where the open window starts. */
  lemma {:induction false} CountedSoFar(calls: seq<Call>, from: Time, limit: nat)
    requires calls != [] && Ordered(calls) && LimitsAtMost(calls, limit)
    ensures var w, k := After(calls).value, AllowedIn(calls, from);
      && (calls[|calls| - 1].at < from ==> k == 0)
      && (w.start < from ==> k <= w.count)
      && (from <= w.start < from + MINUTE ==> k <= limit + w.count)
      && k <= 2 * limit
  {
    var n := |calls| - 1;
    WindowSound(calls, limit);
    if n > 0 {
      WindowSound(calls[..n], limit);
      CountedSoFar(calls[..n], from, limit);
      ResetAfterMinute(After(calls[..n]).value, calls[n].at);
    } else {
      assert calls[..0] == [];
    }
  }

  /** For calls in time order with limits of at most `limit`, no minute sees more than
      twice the limit. */
  lemma AtMostTwice(calls: seq<Call>, from: Time, limit: nat)
    requires Ordered(calls) && LimitsAtMost(calls, limit)
    ensures AllowedIn(calls, from) <= 2 * limit
  {
    if calls != [] { CountedSoFar(calls, from, limit); }
  }

  // ---- Both bounds are reached, and the rolling-window promise ----

  /** Each window's first call passes when every call carries the same positive limit, so
      of two windows that meet one minute the first has spent a call outside it. */
  lemma {:induction false} CountedSoFarUniform(calls: seq<Call>, from: Time, limit: nat)
    requires calls != [] && Ordered(calls) && LimitsEqual(calls, limit) && limit >= 1
    ensures var w, k := After(calls).value, AllowedIn(calls, from);
      && w.count >= 1
      && (calls[|calls| - 1].at < from ==> k == 0)
      && (w.start < from ==> k <= w.count - 1)
      && (from <= w.start < from + MINUTE ==> k <= limit - 1 + w.count)
      && k <= 2 * limit - 1
  {
    var n := |calls| - 1;
    WindowSound(calls, limit);
    if n > 0 {
      WindowSound(calls[..n], limit);
      CountedSoFarUniform(calls[..n], from, limit);
      ResetAfterMinute(After(calls[..n]).value, calls[n].at);
    } else {
      assert calls[..0] == [];
    }
  }

  /** With one limit for all calls the bound is one lower. */
  lemma AtMostTwiceLessOne(calls: seq<Call>, from: Time, limit: nat)
    requires Ordered(calls) && LimitsEqual(calls, limit) && limit >= 1
    ensures AllowedIn(calls, from) <= 2 * limit - 1
  {
    if calls != [] { CountedSoFarUniform(calls, from, limit); }
  }

  /** `k` calls at one instant. */
  function Burst(k: nat, at: Time, limit: Int32): seq<Call> {
    seq(k, _ => Call(at, limit))
  }

  lemma OneMore(calls: seq<Call>, c: Call, from: Time)
    ensures var v, all := Check(After(calls), c.limit, c.at), calls + [c];
      && After(all) == Some(v.window)
      && AllowedIn(all, from) == AllowedIn(calls, from) + if v.allow && from <= c.at < from + MINUTE then 1 else 0
  {
    assert (calls + [c])[..|calls|] == calls;
  }

  /** The open window, if any, has room for k more calls of this limit at this time. */
  ghost predicate HasRoom(w: Option<Window>, k: nat, at: Time, limit: Int32) {
    w.Some? && at - w.value.start < MINUTE && 0 <= w.value.count && w.value.count + k <= limit
  }

  lemma RoomForOne(w: Option<Window>, k: nat, at: Time, limit: Int32)
    requires HasRoom(w, k + 1, at, limit)
    ensures Check(w, limit, at) == Verdict(true, Window(w.value.count + 1, w.value.start))
    ensures HasRoom(Some(Window(w.value.count + 1, w.value.start)), k, at, limit)
  {
    ResetAfterMinute(w.value, at);
  }

  /** A burst into an open window is allowed while the window has room. */
  lemma {:induction false} BurstAllowed(calls: seq<Call>, k: nat, at: Time, limit: Int32, from: Time)
    requires from <= at < from + MINUTE && HasRoom(After(calls), k, at, limit)
    ensures var all := calls + Burst(k, at, limit);
      && AllowedIn(all, from) == AllowedIn(calls, from) + k
      && After(all) == Some(Window(After(calls).value.count + k, After(calls).value.start))
    decreases k
  {
    hide After, AllowedIn, Check;
    if k == 0 {
      assert calls + Burst(k, at, limit) == calls;
    } else {
      var c := Call(at, limit);
      RoomForOne(After(calls), k - 1, at, limit);
      OneMore(calls, c, from);
      BurstAllowed(calls + [c], k - 1, at, limit, from);
      assert calls + Burst(k, at, limit) == (calls + [c]) + Burst(k - 1, at, limit);
    }
  }

  /** An opener at time 0, k calls just before its window ends, and a full window opened
      at the reset. */
  function TwoFull(openerLimit: Int32, k: nat, limit: Int32): seq<Call>
    requires limit >= 1
  {
    [Call(0, openerLimit)] + Burst(k, MINUTE - 1, limit) + [Call(MINUTE, limit)] + Burst(limit - 1, MINUTE, limit)
  }

  lemma TwoFullOrdered(openerLimit: Int32, k: nat, limit: Int32)
    requires limit >= 1 && openerLimit <= limit
    ensures var all := TwoFull(openerLimit, k, limit);
      Ordered(all) && LimitsAtMost(all, limit) && (openerLimit == limit ==> LimitsEqual(all, limit))
  {
    var all := TwoFull(openerLimit, k, limit);
    assert forall i | 0 <= i < |all| ::
      all[i] == if i == 0 then Call(0, openerLimit) else Call(if i <= k then MINUTE - 1 else MINUTE, limit);
  }

  /** All but the opener fall in the minute that starts a nanosecond after it. */
  lemma TwoFullCount(openerLimit: Int32, k: nat, limit: Int32)
    requires limit >= 1 && openerLimit in {0, limit} && k + (if openerLimit == 0 then 0 else 1) == limit
    ensures AllowedIn(TwoFull(openerLimit, k, limit), 1) == k + limit
  {
    var opener := Call(0, openerLimit);
    OneMore([], opener, 1);
    assert [] + [opener] == [opener];
    BurstAllowed([opener], k, MINUTE - 1, limit, 1);
    var first := [opener] + Burst(k, MINUTE - 1, limit);
    ResetAfterMinute(After(first).value, MINUTE);
    OneMore(first, Call(MINUTE, limit), 1);
    BurstAllowed(first + [Call(MINUTE, limit)], limit - 1, MINUTE, limit, 1);
  }

  /** Both bounds are tight for every positive limit: 2L - 1 with the limit L throughout,
      and 2L when the window is opened by a call whose own limit is zero. */
  lemma BoundsReached(limit: Int32)
    requires limit >= 1
    ensures var all := TwoFull(limit, limit - 1, limit);
      Ordered(all) && LimitsEqual(all, limit) && AllowedIn(all, 1) == 2 * limit - 1
    ensures var all := TwoFull(0, limit, limit);
      Ordered(all) && LimitsAtMost(all, limit) && AllowedIn(all, 1) == 2 * limit
  {
    TwoFullOrdered(limit, limit - 1, limit);
    TwoFullCount(limit, limit - 1, limit);
    TwoFullOrdered(0, limit, limit);
    TwoFullCount(0, limit, limit);
  }

  /** The documented rolling window - at most L calls in any minute - holds for callers who
      always pass the limit L exactly when L is at most one. */
  lemma RollingWindowExact(limit: Int32)
    ensures (forall calls, from | Ordered(calls) && LimitsEqual(calls, limit) ::
              AllowedIn(calls, from) <= if limit > 0 then limit else 0) <==> limit <= 1
  {
    if limit <= 1 {
      forall calls, from | Ordered(calls) && LimitsEqual(calls, limit)
        ensures AllowedIn(calls, from) <= if limit > 0 then limit else 0
      {
        if limit == 1 { AtMostTwiceLessOne(calls, from, 1); } else { AtMostTwice(calls, from, 0); }
      }
    } else {
      BoundsReached(limit);
      assert AllowedIn(TwoFull(limit, limit - 1, limit), 1) > limit;
    }
  }

  // ---- Many groups in one file ----

  datatype Request = Request(group: string, call: Call)

  /** The file after `requests`, from an empty one. */
  function LimitsAfter(requests: seq<Request>): Limits {
    if requests == [] then map[]
    else
      var before, r := LimitsAfter(requests[..|requests| - 1]), requests[|requests| - 1];
      before[r.group := Check(Lookup(before, r.group), r.call.limit, r.call.at).window]
  }

  predicate Passed(requests: seq<Request>, i: nat)
    requires i < |requests|
  {
    Check(Lookup(LimitsAfter(requests[..i]), requests[i].group), requests[i].call.limit, requests[i].call.at).allow
  }

  function CallsOf(requests: seq<Request>, group: string): seq<Call> {
    if requests == [] then []
    else
      var r := requests[|requests| - 1];
      CallsOf(requests[..|requests| - 1], group) + if r.group == group then [r.call] else []
  }

  /** How many requests of `group` pass in the half-open minute from `from`. */
  function PassedIn(requests: seq<Request>, group: string, from: Time): nat {
    if requests == [] then 0
    else
      var n := |requests| - 1;
      PassedIn(requests[..n], group, from)
      + if requests[n].group == group && Passed(requests, n) && from <= requests[n].call.at < from + MINUTE
        then 1 else 0
  }

  /** Groups do not disturb each other: however the requests of many groups mix, each
      group's window and verdicts are those of its own calls alone. */
  lemma {:induction false} GroupsIndependent(requests: seq<Request>, group: string, from: Time)
    ensures Lookup(LimitsAfter(requests), group) == After(CallsOf(requests, group))
    ensures PassedIn(requests, group, from) == AllowedIn(CallsOf(requests, group), from)
  {
    if requests != [] {
      var init, r := requests[..|requests| - 1], requests[|requests| - 1];
      GroupsIndependent(init, group, from);
      if r.group == group {
        OneMore(CallsOf(init, group), r.call, from);
      } else {
        assert CallsOf(requests, group) == CallsOf(init, group);
      }
    }
  }

  ghost predicate RequestsOrdered(requests: seq<Request>) {
    forall i, j | 0 <= i < j < |requests| :: requests[i].call.at <= requests[j].call.at
  }

  ghost predicate GroupLimited(requests: seq<Request>, group: string, limit: int) {
    forall i | 0 <= i < |requests| && requests[i].group == group :: requests[i].call.limit <= limit
  }

  lemma OneMoreOrdered(calls: seq<Call>, c: Call, limit: int)
    requires Ordered(calls) && LimitsAtMost(calls, limit) && c.limit <= limit
    requires calls != [] ==> calls[|calls| - 1].at <= c.at
    ensures Ordered(calls + [c]) && LimitsAtMost(calls + [c], limit)
  {}

  lemma {:induction false} CallsInherit(requests: seq<Request>, group: string, limit: int)
    requires RequestsOrdered(requests) && GroupLimited(requests, group, limit)
    ensures var calls := CallsOf(requests, group);
      && Ordered(calls) && LimitsAtMost(calls, limit)
      && (calls != [] ==> requests != [] && calls[|calls| - 1].at <= requests[|requests| - 1].call.at)
  {
    if requests != [] {
      var init, r := requests[..|requests| - 1], requests[|requests| - 1];
      CallsInherit(init, group, limit);
      hide Ordered, LimitsAtMost;
      if r.group == group {
        OneMoreOrdered(CallsOf(init, group), r.call, limit);
      } else {
        assert CallsOf(requests, group) == CallsOf(init, group);
      }
    }
  }

  /** So the bound holds for each group whatever the others do. */
  lemma GroupAtMostTwice(requests: seq<Request>, group: string, from: Time, limit: nat)
    requires RequestsOrdered(requests) && GroupLimited(requests, group, limit)
    ensures PassedIn(requests, group, from) <= 2 * limit
  {
    CallsInherit(requests, group, limit);
    GroupsIndependent(requests, group, from);
    AtMostTwice(CallsOf(requests, group), from, limit);
  }

  // ---- What dispatchers make of it ----

  /** Only a task that names both a group and a limit asks the limiter. */
  predicate Asks(t: Task) {
    t.rateLimitGroup.Some? && t.maxPerMinute.Some?
  }

  predicate Passes(limits: Limits, t: Task, now: Time) {
    Asks(t) ==> Check(Lookup(limits, t.rateLimitGroup.value), t.maxPerMinute.value, now).allow
  }

  function LimitsNext(limits: Limits, t: Task, now: Time): Limits {
    if Asks(t) then
      var group := t.rateLimitGroup.value;
      limits[group := Check(Lookup(limits, group), t.maxPerMinute.value, now).window]
    else limits
  }

  /** A dispatcher of any pool has popped `task` and looks at the limiter at `now`. */
  datatype Turn = Turn(task: Task, now: Time)

  function LimitsAfterTurns(turns: seq<Turn>): Limits {
    if turns == [] then map[]
    else var n := |turns| - 1; LimitsNext(LimitsAfterTurns(turns[..n]), turns[n].task, turns[n].now)
  }

  predicate InGroup(t: Task, group: string) {
    t.rateLimitGroup == Some(group) && t.maxPerMinute.Some?
  }

  /** How many limited tasks of `group` are let through in the half-open minute from `from`. */
  function StartedIn(turns: seq<Turn>, group: string, from: Time): nat {
    if turns == [] then 0
    else
      var n := |turns| - 1;
      StartedIn(turns[..n], group, from)
      + if InGroup(turns[n].task, group) && Passes(LimitsAfterTurns(turns[..n]), turns[n].task, turns[n].now)
           && from <= turns[n].now < from + MINUTE then 1 else 0
  }

  function RequestsOf(turns: seq<Turn>): seq<Request> {
    if turns == [] then []
    else
      var t, now := turns[|turns| - 1].task, turns[|turns| - 1].now;
      RequestsOf(turns[..|turns| - 1])
      + if Asks(t) then [Request(t.rateLimitGroup.value, Call(now, t.maxPerMinute.value))] else []
  }

  lemma OneMoreRequest(requests: seq<Request>, r: Request, group: string, from: Time)
    ensures var v := Check(Lookup(LimitsAfter(requests), r.group), r.call.limit, r.call.at);
      && LimitsAfter(requests + [r]) == LimitsAfter(requests)[r.group := v.window]
      && PassedIn(requests + [r], group, from) == PassedIn(requests, group, from)
           + if r.group == group && v.allow && from <= r.call.at < from + MINUTE then 1 else 0
  {
    assert (requests + [r])[..|requests|] == requests;
  }

  lemma {:induction false} TurnsAreRequests(turns: seq<Turn>, group: string, from: Time)
    ensures LimitsAfterTurns(turns) == LimitsAfter(RequestsOf(turns))
    ensures StartedIn(turns, group, from) == PassedIn(RequestsOf(turns), group, from)
  {
    if turns != [] {
      var init, t, now := turns[..|turns| - 1], turns[|turns| - 1].task, turns[|turns| - 1].now;
      TurnsAreRequests(init, group, from);
      if Asks(t) {
        OneMoreRequest(RequestsOf(init), Request(t.rateLimitGroup.value, Call(now, t.maxPerMinute.value)), group, from);
      } else {
        assert RequestsOf(turns) == RequestsOf(init);
      }
    }
  }

  ghost predicate TurnsOrdered(turns: seq<Turn>) {
    forall i, j | 0 <= i < j < |turns| :: turns[i].now <= turns[j].now
  }

  ghost predicate TurnsLimited(turns: seq<Turn>, group: string, limit: int) {
    forall i | 0 <= i < |turns| && InGroup(turns[i].task, group) :: turns[i].task.maxPerMinute.value <= limit
  }

  lemma LaterRequest(requests: seq<Request>, r: Request, group: string, limit: int)
    requires RequestsOrdered(requests) && GroupLimited(requests, group, limit)
    requires r.group == group ==> r.call.limit <= limit
    requires forall i | 0 <= i < |requests| :: requests[i].call.at <= r.call.at
    ensures RequestsOrdered(requests + [r]) && GroupLimited(requests + [r], group, limit)
  {}

  lemma {:induction false} RequestsInherit(turns: seq<Turn>, group: string, limit: int)
    requires TurnsOrdered(turns) && TurnsLimited(turns, group, limit)
    ensures var rs := RequestsOf(turns);
      && RequestsOrdered(rs) && GroupLimited(rs, group, limit)
      && forall i | 0 <= i < |rs| :: rs[i].call.at <= turns[|turns| - 1].now
  {
    if turns != [] {
      var init, t, now := turns[..|turns| - 1], turns[|turns| - 1].task, turns[|turns| - 1].now;
      RequestsInherit(init, group, limit);
      assert init != [] ==> init[|init| - 1].now <= now;
      if Asks(t) {
        LaterRequest(RequestsOf(init), Request(t.rateLimitGroup.value, Call(now, t.maxPerMinute.value)), group, limit);
      } else {
        assert RequestsOf(turns) == RequestsOf(init);
      }
    }
  }

  /** In every sequence of dispatcher turns of one shard, other groups and unlimited tasks
      between them, at most twice the limit of a group's tasks start in a minute. */
  lemma DispatchesAtMostTwice(turns: seq<Turn>, group: string, from: Time, limit: nat)
    requires TurnsOrdered(turns) && TurnsLimited(turns, group, limit)
    ensures StartedIn(turns, group, from) <= 2 * limit
  {
    RequestsInherit(turns, group, limit);
    TurnsAreRequests(turns, group, from);
    GroupAtMostTwice(RequestsOf(turns), group, from, limit);
  }
}
