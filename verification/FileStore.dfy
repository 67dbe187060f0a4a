/** The file store: the log on disk, its in-memory cache and three counters
    (src/file_store.rs). */
module FileStore {
  import opened Tasks
  import opened Log

  /** A store as a value. `file` is None until the log exists. */
  datatype Store = Store(file: Option<seq<Line>>, cache: Live, total: nat, deleted: nat, appended: nat)

  function Lines(s: Store): seq<Line> {
    if s.file.Some? then s.file.value else []
  }

  /** A store opened on `file`. */
  function Opened(file: Option<seq<Line>>): Store {
    if file.None? then Store(None, map[], 0, 0, 0)
    else Store(file, Replay(file.value), CountLive(file.value), CountTombstones(file.value), CountRecords(file.value))
  }

  function Saved(s: Store, t: Task): Store {
    var dead := t.deletedAt.Some?;
    Store(Some(Lines(s) + [Record(t)]),
          if dead then s.cache - {t.id} else s.cache[t.id := t],
          if dead then s.total else s.total + 1,
          if dead then s.deleted + 1 else s.deleted,
          s.appended + 1)
  }

  function Deleted(s: Store, id: TaskId, now: Time): Store {
    if id in s.cache && s.cache[id].deletedAt.None? then Saved(s, MarkDeleted(s.cache[id], now)) else s
  }

  /** A store whose log was compacted, its lines parsed at `stamps` and the survivors
      written in `order`. */
  function Compacted(s: Store, stamps: seq<Time>, order: seq<TaskId>): Store
    requires |stamps| == |Lines(s)| && Visits(order, CompactedMap(Lines(s), stamps))
  {
    var m := CompactedMap(Lines(s), stamps);
    if s.file.None? then s else Store(Some(Written(m, order)), m, |m|, 0, 0)
  }

  /** The cache is the replay of the log, the counters count its live and tombstone lines. */
  ghost predicate Consistent(s: Store) {
    && s.cache == Replay(Lines(s))
    && s.total == CountLive(Lines(s))
    && s.deleted == CountTombstones(Lines(s))
  }

  lemma OpenedConsistent(file: Option<seq<Line>>)
    ensures Consistent(Opened(file)) && Keyed(Opened(file).cache)
  {
    ReplayKeyed(Lines(Opened(file)));
  }

  lemma SavedConsistent(s: Store, t: Task)
    requires Consistent(s)
    ensures Consistent(Saved(s, t))
  {
    ReplayAppend(Lines(s), Record(t));
  }

  lemma CompactedConsistent(s: Store, stamps: seq<Time>, order: seq<TaskId>)
    requires Consistent(s) && |stamps| == |Lines(s)| && Visits(order, CompactedMap(Lines(s), stamps))
    ensures var s' := Compacted(s, stamps, order);
      && Consistent(s') && s'.cache.Keys == s.cache.Keys
      && (s'.cache == s.cache <==> KeepsMeaning(Lines(s), stamps))
  {
    var m := CompactedMap(Lines(s), stamps);
    CompactionKeepsIds(Lines(s), stamps);
    CompactionKeyed(Lines(s), stamps);
    WrittenReplays(m, order);
    VisitCount(order, m);
    PickedAll(m, order);
  }

  lemma NothingToCompact(s: Store, stamps: seq<Time>)
    requires s.file.None? && stamps == []
    ensures Visits([], CompactedMap(Lines(s), stamps)) && Compacted(s, stamps, []) == s
  {}

  function LinesWhere(log: seq<Line>, live: bool, dead: bool): set<nat> {
    set i: nat | i < |log| && log[i].Record?
                 && (if log[i].task.deletedAt.None? then live else dead)
  }

  lemma OneMoreLine(log: seq<Line>, live: bool, dead: bool)
    requires log != []
    ensures var n, l := |log| - 1, log[|log| - 1];
      |LinesWhere(log, live, dead)| == |LinesWhere(log[..n], live, dead)|
        + if l.Record? && (if l.task.deletedAt.None? then live else dead) then 1 else 0
  {
    var n, l := |log| - 1, log[|log| - 1];
    var before := LinesWhere(log[..n], live, dead);
    var counts := l.Record? && (if l.task.deletedAt.None? then live else dead);
    assert n !in before;
    forall i ensures i in LinesWhere(log, live, dead) <==> i in before || (counts && i == n) {
      if 0 <= i < n { assert log[..n][i] == log[i]; }
    }
    hide LinesWhere;
    assert LinesWhere(log, live, dead) == before + if counts then {n} else {};
  }

  /** The counters' counts are numbers of lines. */
  lemma {:induction false} CountsExact(log: seq<Line>)
    ensures CountLive(log) == |LinesWhere(log, true, false)|
    ensures CountTombstones(log) == |LinesWhere(log, false, true)|
    ensures CountRecords(log) == |LinesWhere(log, true, true)|
  {
    if log != [] {
      CountsExact(log[..|log| - 1]);
      OneMoreLine(log, true, false);
      OneMoreLine(log, false, true);
      OneMoreLine(log, true, true);
    }
  }

  // ---- Whole runs ----

  /** What can happen to a store: saves, deletes, a compaction that finishes, one that
      the process dies in before or after the rename, and a reopening. */
  datatype Op =
    | Save(task: Task)
    | Delete(id: TaskId, now: Time)
    | Compaction(stamps: seq<Time>, order: seq<TaskId>)
    | CrashedCompaction(stamps: seq<Time>, order: seq<TaskId>, renamed: bool)
    | Reopen

  ghost predicate Possible(s: Store, op: Op) {
    op.Compaction? || op.CrashedCompaction? ==>
      |op.stamps| == |Lines(s)| && Visits(op.order, CompactedMap(Lines(s), op.stamps))
  }

  function Perform(s: Store, op: Op): Store
    requires Possible(s, op)
  {
    match op
    case Save(t) => Saved(s, t)
    case Delete(id, now) => Deleted(s, id, now)
    case Compaction(stamps, order) => Compacted(s, stamps, order)
    case CrashedCompaction(stamps, order, renamed) =>
      Opened(if renamed then Compacted(s, stamps, order).file else s.file)
    case Reopen => Opened(s.file)
  }

  ghost predicate OpsPossible(s: Store, ops: seq<Op>)
    decreases |ops|
  {
    ops == [] || (Possible(s, ops[0]) && OpsPossible(Perform(s, ops[0]), ops[1..]))
  }

  function RunOps(s: Store, ops: seq<Op>): Store
    requires OpsPossible(s, ops)
    decreases |ops|
  {
    if ops == [] then s else RunOps(Perform(s, ops[0]), ops[1..])
  }

  lemma PerformConsistent(s: Store, op: Op)
    requires Consistent(s) && Possible(s, op)
    ensures Consistent(Perform(s, op))
    ensures op.Compaction? || op.CrashedCompaction? || op.Reopen? ==> Perform(s, op).cache.Keys == s.cache.Keys
  {
    match op
    case Save(t) => SavedConsistent(s, t);
    case Delete(id, now) => if id in s.cache { SavedConsistent(s, MarkDeleted(s.cache[id], now)); }
    case Compaction(stamps, order) => CompactedConsistent(s, stamps, order);
    case CrashedCompaction(stamps, order, renamed) =>
      CompactedConsistent(s, stamps, order);
      OpenedConsistent(if renamed then Compacted(s, stamps, order).file else s.file);
    case Reopen => OpenedConsistent(s.file);
  }

  /** Through every sequence of saves, deletes, compactions (finished or cut short on
      either side of the rename) and reopenings, the cache is the replay of the log. */
  lemma {:induction false} RunConsistent(s: Store, ops: seq<Op>)
    requires Consistent(s) && OpsPossible(s, ops)
    ensures Consistent(RunOps(s, ops))
    decreases |ops|
  {
    if ops != [] {
      PerformConsistent(s, ops[0]);
      RunConsistent(Perform(s, ops[0]), ops[1..]);
    }
  }

  // ---- The store as the program keeps it ----

  class TaskFile {
    var file: Option<seq<Line>>
    var temp: seq<Line>
    var cache: Live
    var total: nat
    var deleted: nat
    var appended: nat
    var compacting: bool

    function View(): Store
      reads this
    {
      Store(file, cache, total, deleted, appended)
    }

    ghost predicate Valid()
      reads this
    {
      Consistent(View())
    }

    constructor (onDisk: Option<seq<Line>>)
      ensures Valid() && View() == Opened(onDisk) && !compacting
    {
      file, temp, compacting := onDisk, [], false;
      cache, total, deleted, appended := map[], 0, 0, 0;
      new;
      RebuildMetadata();
      OpenedConsistent(onDisk);
    }

    method RebuildMetadata()
      requires file.None? ==> total == deleted == appended == 0
      modifies this`cache, this`total, this`deleted, this`appended
      ensures View() == Opened(old(file))
    {
      cache := map[];
      if file.None? {
        return;
      }
      var lines := file.value;
      var live, dead, parsed := 0, 0, 0;
      for i := 0 to |lines|
        invariant cache == Replay(lines[..i])
        invariant live == CountLive(lines[..i])
        invariant dead == CountTombstones(lines[..i])
        invariant parsed == CountRecords(lines[..i])
      {
        ReplayAppend(lines[..i], lines[i]);
        assert lines[..i + 1] == lines[..i] + [lines[i]];
        if lines[i].Record? {
          var task := lines[i].task;
          parsed := parsed + 1;
          if task.deletedAt.Some? {
            dead := dead + 1;
            cache := cache - {task.id};
          } else {
            live := live + 1;
            cache := cache[task.id := task];
          }
        }
      }
      assert lines[..|lines|] == lines;
      total, deleted, appended := live, dead, parsed;
    }

    method SaveTask(task: Task)
      requires Valid()
      modifies this
      ensures Valid() && View() == Saved(old(View()), task)
      ensures Lines(View()) == Lines(old(View())) + [Record(task)] && appended == old(appended) + 1
    {
      ghost var after := Saved(View(), task);
      SavedConsistent(View(), task);
      file := Some((if file.Some? then file.value else []) + [Record(task)]);
      if task.deletedAt.Some? {
        cache := cache - {task.id};
      } else {
        cache := cache[task.id := task];
      }
      appended := appended + 1;
      if task.deletedAt.Some? {
        deleted := deleted + 1;
      } else {
        total := total + 1;
      }
      assert View() == after;
    }

    /** `read_tasks`: every cached task once, in no particular order. */
    method ReadTasks() returns (tasks: seq<Task>)
      requires Valid()
      ensures |tasks| == |cache|
      ensures forall t :: t in tasks <==> t.id in cache && cache[t.id] == t
    {
      ReplayKeyed(Lines(View()));
      tasks := [];
      var left := cache;
      while left != map[]
        invariant forall id | id in left :: id in cache && cache[id] == left[id]
        invariant forall t :: t in tasks <==> t.id in cache && cache[t.id] == t && t.id !in left
        invariant |tasks| + |left| == |cache|
        decreases |left|
      {
        var id :| id in left;
        ghost var before := left;
        tasks := tasks + [left[id]];
        left := left - {id};
        assert before.Keys == left.Keys + {id};
      }
    }

    method DeleteTask(id: TaskId, now: Time)
      requires Valid()
      modifies this
      ensures Valid() && View() == Deleted(old(View()), id, now)
      ensures cache == old(cache) - {id}
      ensures Lines(View()) == Lines(old(View())) +
        if id in old(cache) then [Record(old(cache)[id].(deletedAt := Some(now)))] else []
    {
      ReplayKeyed(Lines(View()));
      if id in cache && cache[id].deletedAt.None? {
        SaveTask(MarkDeleted(cache[id], now));
      }
    }

    /** `deleted / total > 0.5` on positive counts is `2 * deleted > total`. */
    predicate ShouldCompact(fileSize: nat)
      reads this
    {
      fileSize > 20 * 1024 * 1024 || (total > 0 && 2 * deleted > total) || appended >= 10000
    }

    /** A save, and whether a compaction is started after it: for a large file, for more
        than half as many tombstones as live lines in it, or after many appends. */
    method SaveAndCheck(task: Task, fileSize: nat) returns (compact: bool)
      requires Valid()
      modifies this
      ensures Valid() && View() == Saved(old(View()), task)
      ensures var lines := Lines(View());
        compact == (fileSize > 20 * 1024 * 1024 || old(appended) >= 9999
                    || 0 < CountLive(lines) < 2 * CountTombstones(lines))
    {
      SaveTask(task);
      compact := ShouldCompact(fileSize);
    }

    /** Rewrites the log; `stamps` are the clock readings taken while parsing it. Does
        nothing when a compaction is already under way, and fails, changing nothing,
        when there is no log. */
    method CompactLog(stamps: seq<Time>) returns (ok: bool, ghost order: seq<TaskId>)
      requires Valid() && |stamps| == |Lines(View())|
      modifies this
      ensures Valid() && compacting == old(compacting)
      ensures old(compacting) ==> ok && View() == old(View())
      ensures !old(compacting) ==> ok == old(file).Some?
      ensures !old(compacting) ==> Visits(order, CompactedMap(Lines(old(View())), stamps))
      ensures !old(compacting) ==> View() == Compacted(old(View()), stamps, order)
      ensures !old(compacting) && ok ==> total == |cache| && deleted == 0 && appended == 0
    {
      hide Consistent, CompactedMap, Visits;
      order := [];
      if compacting {
        return true, order;
      }
      if file.None? {
        NothingToCompact(View(), stamps);
        return false, order;
      }
      compacting := true;
      order := Rewrite(stamps);
      compacting := false;
      ok := true;
    }

    /** The old log read, the new one written beside it, renamed over it, and the cache and
        counters set to match. */
    method Rewrite(stamps: seq<Time>) returns (ghost order: seq<TaskId>)
      requires Valid() && file.Some? && |stamps| == |file.value|
      modifies this`file, this`temp, this`cache, this`total, this`deleted, this`appended
      ensures Valid()
      ensures Visits(order, CompactedMap(old(file).value, stamps)) && View() == Compacted(old(View()), stamps, order)
      ensures total == |cache| && deleted == 0 && appended == 0
    {
      hide Consistent, Compact, Visits, Written;
      ghost var before := View();
      var kept := Survivors(file.value, stamps);
      var m := Unstamped(kept);
      order := WriteTemp(m);
      CompactedConsistent(before, stamps, order);
      file := Some(temp);
      total, deleted, appended := |m|, 0, 0;
      cache := m;
    }

    /** The pass over the old log: later parsed lines win, tombstones remove. */
    method Survivors(lines: seq<Line>, stamps: seq<Time>) returns (kept: map<TaskId, Kept>)
      requires |stamps| == |lines|
      ensures kept == Compact(lines, stamps)
    {
      kept := map[];
      for i := 0 to |lines|
        invariant kept == Compact(lines[..i], stamps[..i])
      {
        assert lines[..i + 1][..i] == lines[..i] && stamps[..i + 1][..i] == stamps[..i];
        if lines[i].Record? {
          var task := lines[i].task;
          if task.deletedAt.Some? {
            kept := kept - {task.id};
          } else if task.id in kept {
            if stamps[i] > kept[task.id].stamp {
              kept := kept[task.id := Kept(task, stamps[i])];
            }
          } else {
            kept := kept[task.id := Kept(task, stamps[i])];
          }
        }
      }
      assert lines[..|lines|] == lines && stamps[..|lines|] == stamps;
    }

    method WriteTemp(m: Live) returns (ghost order: seq<TaskId>)
      modifies this`temp
      ensures Visits(order, m) && temp == Written(m, order)
    {
      temp, order := [], [];
      var left := m.Keys;
      while left != {}
        invariant left <= m.Keys
        invariant forall id :: id in order <==> id in m && id !in left
        invariant forall i, j | 0 <= i < j < |order| :: order[i] != order[j]
        invariant temp == Written(m, order)
        decreases left
      {
        var id :| id in left;
        assert (order + [id])[..|order|] == order;
        temp := temp + [Record(m[id])];
        order := order + [id];
        left := left - {id};
      }
    }
  }
}
