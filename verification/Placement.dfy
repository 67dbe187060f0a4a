/** Where the copies of tasks are: in a heap, in a dispatcher's hand, or in a spawned
    execution, and the two id sets that guard them (src/queue.rs).

    An entry number names one heap slot. The copy pushed into the slot keeps the number
    when a dispatcher pops it and when an execution carries it off, so a copy is one
    thing throughout its life. The heap of a pool is the `InHeap` copies of that pool. */
module Placement {
  import opened Tasks

  type Entry = nat

  datatype Phase =
    // The id is in `queued_tasks`.
    | InHeap
    | Popped      // popped, rate limit not yet checked
    | Cleared     // the rate limiter let it pass
    | Denied      // the rate limiter refused it
    | Deferred    // the refusal has been saved
    // The id is in `executing_tasks`.
    | Spawned     // execution spawned, completed set not yet checked
    | Handling    // guard built, handler running
    | Ending(won: bool)    // handler done for good: succeeded, or out of retries
    | Recorded(won: bool)  // in the completed set
    | Erased      // tombstone written
    | Gone        // payload hash released after the tombstone
    | Leaving     // the record stays; only the guard is left to drop

  predicate IsQueued(p: Phase) {
    p.InHeap? || p.Popped? || p.Cleared? || p.Denied? || p.Deferred?
  }

  datatype Copy = Copy(task: Task, phase: Phase)

  /** `stuck` is bookkeeping: ids that an execution left in `executing_tasks` by
      returning before its guard was built. */
  datatype Places = Places(
    copies: map<Entry, Copy>,
    next: Entry,
    queued: set<TaskId>,
    executing: set<TaskId>,
    stuck: set<TaskId>)

  const Nowhere := Places(map[], 0, {}, {}, {})

  ghost predicate Holds(pl: Places, e: Entry, id: TaskId, queued: bool) {
    e in pl.copies && pl.copies[e].task.id == id && IsQueued(pl.copies[e].phase) == queued
  }

  /** One copy per id at most; an id is in `queued` exactly when a queued copy of it
      exists, and in `executing` exactly when an execution of it exists or one got stuck. */
  ghost predicate Exclusive(pl: Places) {
    && (forall e | e in pl.copies :: e < pl.next)
    && (forall e, f | e in pl.copies && f in pl.copies && pl.copies[e].task.id == pl.copies[f].task.id :: e == f)
    && (forall id :: id in pl.queued <==> exists e :: Holds(pl, e, id, true))
    && (forall id :: id in pl.executing <==> id in pl.stuck || exists e :: Holds(pl, e, id, false))
    && (forall e | e in pl.copies :: pl.copies[e].task.id !in pl.stuck)
  }

  /** Entry e is in the heap of `pool`. */
  predicate InHeapOf(copies: map<Entry, Copy>, e: Entry, pool: string) {
    e in copies && copies[e].phase == InHeap && PoolOf(copies[e].task) == pool
  }

  // ---- The five things steps do to places ----

  /** Push: the scan's guard on one task, and the insertion it protects. */
  function Admit(pl: Places, t: Task, now: Time): Places {
    if Due(t, now) && t.id !in pl.executing && t.id !in pl.queued
    then pl.(copies := pl.copies[pl.next := Copy(t, InHeap)], next := pl.next + 1, queued := pl.queued + {t.id})
    else pl
  }

  function AdmitAll(pl: Places, tasks: seq<Task>, now: Time): Places {
    if tasks == [] then pl else Admit(AdmitAll(pl, tasks[..|tasks| - 1], now), tasks[|tasks| - 1], now)
  }

  /** The copy goes on, its id staying in the same set. */
  function Advance(pl: Places, e: Entry, t: Task, phase: Phase): Places
    requires e in pl.copies && t.id == pl.copies[e].task.id && IsQueued(phase) == IsQueued(pl.copies[e].phase)
  {
    pl.(copies := pl.copies[e := Copy(t, phase)])
  }

  /** A deferred copy is dropped and its id leaves `queued`. */
  function Unqueue(pl: Places, e: Entry): Places
    requires e in pl.copies
  {
    pl.(copies := pl.copies - {e}, queued := pl.queued - {pl.copies[e].task.id})
  }

  /** The move from `queued` to `executing`, with its branch for an id that is
      already executing. */
  function Start(pl: Places, e: Entry): Places
    requires e in pl.copies
  {
    var id := pl.copies[e].task.id;
    if id in pl.executing then pl.(copies := pl.copies - {e}, queued := pl.queued - {id})
    else pl.(copies := pl.copies[e := pl.copies[e].(phase := Spawned)],
             queued := pl.queued - {id}, executing := pl.executing + {id})
  }

  /** The guard drops. */
  function Vacate(pl: Places, e: Entry): Places
    requires e in pl.copies
  {
    pl.(copies := pl.copies - {e}, executing := pl.executing - {pl.copies[e].task.id})
  }

  /** The early return: the execution ends with no guard to take its id out. */
  function Abandon(pl: Places, e: Entry): Places
    requires e in pl.copies
  {
    pl.(copies := pl.copies - {e}, stuck := pl.stuck + {pl.copies[e].task.id})
  }

  // ---- They keep exclusion ----

  /** `queued` and `executing` are disjoint. */
  lemma SetsDisjoint(pl: Places)
    requires Exclusive(pl)
    ensures pl.queued !! pl.executing
  {}

  lemma AdmitExclusive(pl: Places, t: Task, now: Time)
    requires Exclusive(pl)
    ensures Exclusive(Admit(pl, t, now))
  {
    var pl' := Admit(pl, t, now);
    if pl' != pl {
      forall e | e in pl.copies ensures pl.copies[e].task.id != t.id {
        assert Holds(pl, e, pl.copies[e].task.id, IsQueued(pl.copies[e].phase));
      }
      assert Holds(pl', pl.next, t.id, true);
      assert forall e, id, q :: Holds(pl, e, id, q) ==> Holds(pl', e, id, q);
      assert forall e, id, q :: Holds(pl', e, id, q) ==> Holds(pl, e, id, q) || (e == pl.next && id == t.id && q);
    }
  }

  lemma {:induction false} AdmitAllExclusive(pl: Places, tasks: seq<Task>, now: Time)
    requires Exclusive(pl)
    ensures Exclusive(AdmitAll(pl, tasks, now))
  {
    if tasks != [] {
      AdmitAllExclusive(pl, tasks[..|tasks| - 1], now);
      AdmitExclusive(AdmitAll(pl, tasks[..|tasks| - 1], now), tasks[|tasks| - 1], now);
    }
  }

  lemma AdvanceExclusive(pl: Places, e: Entry, t: Task, phase: Phase)
    requires Exclusive(pl)
    requires e in pl.copies && t.id == pl.copies[e].task.id && IsQueued(phase) == IsQueued(pl.copies[e].phase)
    ensures Exclusive(Advance(pl, e, t, phase))
  {
    var pl' := Advance(pl, e, t, phase);
    assert forall f, id, q :: Holds(pl', f, id, q) <==> Holds(pl, f, id, q);
  }

  lemma RemovalHolds(pl: Places, pl': Places, e: Entry)
    requires Exclusive(pl) && e in pl.copies && pl'.copies == pl.copies - {e}
    ensures forall f, id, q :: Holds(pl', f, id, q) <==> Holds(pl, f, id, q) && id != pl.copies[e].task.id
  {}

  lemma UnqueueExclusive(pl: Places, e: Entry)
    requires Exclusive(pl) && e in pl.copies && IsQueued(pl.copies[e].phase)
    ensures Exclusive(Unqueue(pl, e))
  {
    RemovalHolds(pl, Unqueue(pl, e), e);
    assert Holds(pl, e, pl.copies[e].task.id, true);
  }

  /** The branch that drops a copy because its id is already executing is never taken. */
  lemma DuplicateDropUnreachable(pl: Places, e: Entry)
    requires Exclusive(pl) && e in pl.copies && IsQueued(pl.copies[e].phase)
    ensures pl.copies[e].task.id !in pl.executing
  {
    SetsDisjoint(pl);
    assert Holds(pl, e, pl.copies[e].task.id, true);
  }

  lemma StartExclusive(pl: Places, e: Entry)
    requires Exclusive(pl) && e in pl.copies && IsQueued(pl.copies[e].phase)
    ensures Exclusive(Start(pl, e))
  {
    DuplicateDropUnreachable(pl, e);
    var pl', own := Start(pl, e), pl.copies[e].task.id;
    assert Holds(pl', e, own, false);
    assert forall f, id, q :: id != own ==> (Holds(pl', f, id, q) <==> Holds(pl, f, id, q));
    assert forall f, q :: Holds(pl', f, own, q) ==> f == e && !q;
  }

  lemma VacateExclusive(pl: Places, e: Entry)
    requires Exclusive(pl) && e in pl.copies && !IsQueued(pl.copies[e].phase)
    ensures Exclusive(Vacate(pl, e))
  {
    RemovalHolds(pl, Vacate(pl, e), e);
    assert Holds(pl, e, pl.copies[e].task.id, false);
  }

  lemma AbandonExclusive(pl: Places, e: Entry)
    requires Exclusive(pl) && e in pl.copies && !IsQueued(pl.copies[e].phase)
    ensures Exclusive(Abandon(pl, e))
  {
    RemovalHolds(pl, Abandon(pl, e), e);
    assert Holds(pl, e, pl.copies[e].task.id, false);
  }
}
