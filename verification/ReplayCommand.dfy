/** `snerdmq replay`: putting failed tasks back in the log (src/main.rs, cmd_replay). */
module ReplayCommand {
  import opened Tasks
  import opened Log

  /** The last record of every id, tombstones included. */
  function Latest(log: seq<Line>): map<TaskId, Task> {
    if log == [] then map[]
    else
      var l, before := log[|log| - 1], Latest(log[..|log| - 1]);
      if l.Record? then before[l.task.id := l.task] else before
  }

  predicate Recoverable(t: Task, target: string) {
    t.deletedAt.Some? && t.lastError.Some? && (target == "all" || t.taskType == target)
  }

  function Revived(t: Task, now: Time): Task {
    t.(retryCount := 0, deletedAt := None, lastError := None, lastJobError := None, executeAt := now)
  }

  /** What one run adds, the clock being read as `now(id)` for task `id`. */
  function Recovered(log: seq<Line>, target: string, now: TaskId -> Time): Live {
    map id | id in Latest(log) && Recoverable(Latest(log)[id], target) :: Revived(Latest(log)[id], now(id))
  }

  lemma {:induction false} LatestKeyed(log: seq<Line>)
    ensures forall id | id in Latest(log) :: Latest(log)[id].id == id
  {
    if log != [] { LatestKeyed(log[..|log| - 1]); }
  }

  /** Line i is the last record of `id`. */
  ghost predicate IsLatest(log: seq<Line>, id: TaskId, i: int) {
    && 0 <= i < |log| && log[i].Record? && log[i].task.id == id
    && forall j | i < j < |log| && log[j].Record? :: log[j].task.id != id
  }

  lemma {:induction false} LatestIsLast(log: seq<Line>, id: TaskId)
    ensures id in Latest(log) <==> exists i :: IsLatest(log, id, i)
    ensures forall i | IsLatest(log, id, i) :: Latest(log)[id] == log[i].task
  {
    if log != [] {
      var n := |log| - 1;
      var init, l := log[..n], log[n];
      LatestIsLast(init, id);
      if l.Record? && l.task.id == id {
        assert IsLatest(log, id, n);
      } else {
        assert forall i :: IsLatest(log, id, i) <==> IsLatest(init, id, i);
      }
    }
  }

  /** The live tasks are the ids whose last record is no tombstone. */
  lemma {:induction false} LatestAgreesWithReplay(log: seq<Line>)
    ensures Replay(log) == map id | id in Latest(log) && Latest(log)[id].deletedAt.None? :: Latest(log)[id]
  {
    if log != [] { LatestAgreesWithReplay(log[..|log| - 1]); }
  }

  lemma LatestAppend(log: seq<Line>, t: Task)
    ensures Latest(log + [Record(t)]) == Latest(log)[t.id := t]
  {
    assert (log + [Record(t)])[..|log|] == log;
  }

  lemma MergeUpdate(base: Live, extra: Live, id: TaskId, t: Task)
    ensures base + extra[id := t] == (base + extra)[id := t]
  {}

  lemma {:induction false} AppendWritten(log: seq<Line>, m: Live, order: seq<TaskId>)
    requires Keyed(m) && forall id | id in order :: id in m
    ensures Replay(log + Written(m, order)) == Replay(log) + Picked(m, order)
    ensures Latest(log + Written(m, order)) == Latest(log) + Picked(m, order)
  {
    if order == [] {
      assert log + Written(m, order) == log;
    } else {
      var init, last := order[..|order| - 1], order[|order| - 1];
      AppendWritten(log, m, init);
      assert order == init + [last];
      PickedGrows(m, init, last);
      MergeUpdate(Replay(log), Picked(m, init), last, m[last]);
      MergeUpdate(Latest(log), Picked(m, init), last, m[last]);
      assert log + Written(m, order) == (log + Written(m, init)) + [Record(m[last])];
      ReplayAppend(log + Written(m, init), Record(m[last]));
      LatestAppend(log + Written(m, init), m[last]);
    }
  }

  /** A compaction that keeps the meaning keeps the last records of the live ids. */
  lemma CompactedLatest(log: seq<Line>, stamps: seq<Time>, order: seq<TaskId>)
    requires |stamps| == |log| && Visits(order, CompactedMap(log, stamps)) && KeepsMeaning(log, stamps)
    ensures var after := Latest(Written(CompactedMap(log, stamps), order));
      forall id | id in after :: id in Latest(log) && after[id] == Latest(log)[id]
  {
    var m := CompactedMap(log, stamps);
    CompactionKeyed(log, stamps);
    LatestAgreesWithReplay(log);
    AppendWritten([], m, order);
    PickedAll(m, order);
    assert [] + Written(m, order) == Written(m, order);
  }

  /** One run adds exactly the ids whose last record is a matching tombstone with an
      error, each with a clean retry count, and leaves every other task as it was;
      the same run again finds nothing. */
  lemma ReplayAddsExactlyTheFailed(log: seq<Line>, target: string, now: TaskId -> Time, order: seq<TaskId>)
    requires Visits(order, Recovered(log, target, now))
    ensures var added := Recovered(log, target, now);
      var after := log + Written(added, order);
      && added.Keys !! Replay(log).Keys
      && Replay(after) == Replay(log) + added
      && (forall id :: id in added <==>
            && id in Latest(log) && Latest(log)[id].deletedAt.Some? && Latest(log)[id].lastError.Some?
            && (target == "all" || Latest(log)[id].taskType == target))
      && (forall id | id in added :: IsRevived(Latest(log)[id], Replay(after)[id], now(id)))
      && (forall id | id in Replay(log) :: Replay(after)[id] == Replay(log)[id])
      && forall now' :: Recovered(after, target, now') == map[]
  {
    var added := Recovered(log, target, now);
    LatestKeyed(log);
    LatestAgreesWithReplay(log);
    AppendWritten(log, added, order);
    PickedAll(added, order);
    var after := log + Written(added, order);
    forall now': TaskId -> Time ensures Recovered(after, target, now') == map[] {
      forall id | id in Latest(after) ensures !Recoverable(Latest(after)[id], target) {
        if id !in added { assert Latest(after)[id] == Latest(log)[id]; }
      }
    }
  }

  /** The command on one shard's log; None when the log does not exist. */
  method ReplayShard(file: Option<seq<Line>>, target: string, now: TaskId -> Time)
    returns (file': Option<seq<Line>>, recovered: nat)
    ensures file.None? ==> file'.None? && recovered == 0
    ensures file.Some? ==>
      && file'.Some? && recovered == |Recovered(file.value, target, now)|
      && Replay(file'.value) == Replay(file.value) + Recovered(file.value, target, now)
      && file.value <= file'.value
  {
    if file.None? {
      return None, 0;
    }
    var lines := file.value;
    var latest: map<TaskId, Task> := map[];
    for i := 0 to |lines|
      invariant latest == Latest(lines[..i])
    {
      assert lines[..i + 1][..i] == lines[..i];
      if lines[i].Record? {
        latest := latest[lines[i].task.id := lines[i].task];
      }
    }
    assert lines[..|lines|] == lines;
    LatestKeyed(lines);

    ghost var added := Recovered(lines, target, now);
    ghost var order: seq<TaskId> := [];
    var left := latest.Keys;
    var toRecover: seq<Line> := [];
    while left != {}
      invariant left <= latest.Keys
      invariant forall id :: id in order <==> id in added && id !in left
      invariant forall i, j | 0 <= i < j < |order| :: order[i] != order[j]
      invariant toRecover == Written(added, order) && |toRecover| == |order|
      decreases left
    {
      var id :| id in left;
      var task := latest[id];
      if task.deletedAt.Some? && task.lastError.Some? {
        if target == "all" || task.taskType == target {
          assert (order + [id])[..|order|] == order;
          toRecover := toRecover + [Record(Revived(task, now(id)))];
          order := order + [id];
        }
      }
      left := left - {id};
    }
    VisitCount(order, added);
    ReplayAddsExactlyTheFailed(lines, target, now, order);
    recovered := |toRecover|;
    file' := Some(lines + toRecover);
  }
}
