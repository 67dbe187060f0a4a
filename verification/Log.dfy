/** The append-only task log as a value: what a log means, and what compaction
    makes of it (src/file_store.rs). */
module Log {
  import opened Tasks

  /** One line of the file: a parsed record, or a blank or unparsable line, which
      every reader skips. */
  datatype Line = Record(task: Task) | Skipped

  type Live = map<TaskId, Task>

  predicate IsLive(l: Line) { l.Record? && l.task.deletedAt.None? }

  predicate IsTombstone(l: Line) { l.Record? && l.task.deletedAt.Some? }

  function Apply(m: Live, l: Line): Live {
    if l.Skipped? then m
    else if l.task.deletedAt.Some? then m - {l.task.id}
    else m[l.task.id := l.task]
  }

  /** The meaning of a log: its last writer wins, a tombstone removes. */
  function Replay(log: seq<Line>): Live {
    if log == [] then map[] else Apply(Replay(log[..|log| - 1]), log[|log| - 1])
  }

  function ReplayFrom(m: Live, suffix: seq<Line>): Live {
    if suffix == [] then m else Apply(ReplayFrom(m, suffix[..|suffix| - 1]), suffix[|suffix| - 1])
  }

  function CountLive(log: seq<Line>): nat {
    if log == [] then 0 else CountLive(log[..|log| - 1]) + if IsLive(log[|log| - 1]) then 1 else 0
  }

  function CountTombstones(log: seq<Line>): nat {
    if log == [] then 0
    else CountTombstones(log[..|log| - 1]) + if IsTombstone(log[|log| - 1]) then 1 else 0
  }

  function CountRecords(log: seq<Line>): nat {
    if log == [] then 0 else CountRecords(log[..|log| - 1]) + if log[|log| - 1].Record? then 1 else 0
  }

  lemma ReplayAppend(log: seq<Line>, l: Line)
    ensures Replay(log + [l]) == Apply(Replay(log), l)
    ensures CountLive(log + [l]) == CountLive(log) + if IsLive(l) then 1 else 0
    ensures CountTombstones(log + [l]) == CountTombstones(log) + if IsTombstone(l) then 1 else 0
    ensures CountRecords(log + [l]) == CountRecords(log) + if l.Record? then 1 else 0
  {
    assert (log + [l])[..|log + [l]| - 1] == log;
  }

  /** A log's meaning composes: later lines only see the map the earlier ones made. */
  lemma {:induction false} ReplayConcat(log: seq<Line>, suffix: seq<Line>)
    ensures Replay(log + suffix) == ReplayFrom(Replay(log), suffix)
  {
    if suffix == [] {
      assert log + suffix == log;
    } else {
      var init := suffix[..|suffix| - 1];
      ReplayConcat(log, init);
      assert (log + suffix)[..|log + suffix| - 1] == log + init;
    }
  }

  /** Keys are the ids of the records under them, and no tombstone is ever live. */
  predicate Keyed(m: Live) {
    forall id | id in m :: m[id].id == id && m[id].deletedAt.None?
  }

  lemma {:induction false} ReplayKeyed(log: seq<Line>)
    ensures Keyed(Replay(log))
  {
    if log != [] { ReplayKeyed(log[..|log| - 1]); }
  }

  // ---- Compaction: a different rule, strict comparison of parse-time stamps ----

  datatype Kept = Kept(task: Task, stamp: Time)

  /** What `compact_log` holds after reading `log`, when line i was parsed at stamps[i]. */
  function Compact(log: seq<Line>, stamps: seq<Time>): (kept: map<TaskId, Kept>)
    requires |stamps| == |log|
  {
    if log == [] then map[]
    else CompactLine(Compact(log[..|log| - 1], stamps[..|log| - 1]), log[|log| - 1], stamps[|log| - 1])
  }

  function CompactLine(kept: map<TaskId, Kept>, l: Line, stamp: Time): map<TaskId, Kept> {
    if l.Skipped? then kept
    else if l.task.deletedAt.Some? then kept - {l.task.id}
    else if l.task.id in kept && stamp <= kept[l.task.id].stamp then kept
    else kept[l.task.id := Kept(l.task, stamp)]
  }

  function Unstamped(kept: map<TaskId, Kept>): (m: Live)
    ensures m.Keys == kept.Keys
    ensures forall id | id in m :: m[id] == kept[id].task
  {
    map id | id in kept :: kept[id].task
  }

  function CompactedMap(log: seq<Line>, stamps: seq<Time>): Live
    requires |stamps| == |log|
  {
    Unstamped(Compact(log, stamps))
  }

  /** The live records compaction keeps are those the log means. */
  predicate KeepsMeaning(log: seq<Line>, stamps: seq<Time>)
    requires |stamps| == |log|
  {
    CompactedMap(log, stamps) == Replay(log)
  }

  /** Later live lines of one id were parsed strictly later. */
  ghost predicate StampsIncrease(log: seq<Line>, stamps: seq<Time>)
    requires |stamps| == |log|
  {
    forall i, j | 0 <= i < j < |log| && IsLive(log[i]) && IsLive(log[j]) && log[i].task.id == log[j].task.id ::
      stamps[i] < stamps[j]
  }

  /** Line w is a live line of `id` with no tombstone of `id` after it. */
  ghost predicate InRun(log: seq<Line>, id: TaskId, w: int) {
    && 0 <= w < |log| && IsLive(log[w]) && log[w].task.id == id
    && forall j | w <= j < |log| && IsTombstone(log[j]) :: log[j].task.id != id
  }

  /** The line compaction keeps for `id`: the earliest one with the greatest stamp
      among the live lines after the last tombstone. */
  ghost predicate IsWinner(log: seq<Line>, stamps: seq<Time>, id: TaskId, w: int)
    requires |stamps| == |log|
  {
    && InRun(log, id, w)
    && (forall j | w < j < |log| && InRun(log, id, j) :: stamps[j] <= stamps[w])
    && (forall j | 0 <= j < w && InRun(log, id, j) :: stamps[j] < stamps[w])
  }

  /** The line replay keeps for `id`. */
  ghost predicate IsLast(log: seq<Line>, id: TaskId, w: int) {
    && InRun(log, id, w)
    && forall j | w < j < |log| && log[j].Record? :: log[j].task.id != id
  }

  lemma InRunExtends(log: seq<Line>, l: Line, id: TaskId, w: int)
    requires w < |log|
    ensures InRun(log + [l], id, w) <==> InRun(log, id, w) && !(IsTombstone(l) && l.task.id == id)
  {
    var full := log + [l];
    if InRun(full, id, w) {
      assert full[|log|] == l;
      forall j | w <= j < |log| && IsTombstone(log[j]) ensures log[j].task.id != id {
        assert full[j] == log[j];
      }
    }
  }

  /** For every assignment of stamps, ties and clocks going back included, the ids
      compaction keeps are the ids replay finds live. */
  lemma {:induction false} CompactionKeepsIds(log: seq<Line>, stamps: seq<Time>)
    requires |stamps| == |log|
    ensures Compact(log, stamps).Keys == Replay(log).Keys
  {
    if log != [] {
      CompactionKeepsIds(log[..|log| - 1], stamps[..|log| - 1]);
    }
  }

  lemma {:induction false} CompactionKeyed(log: seq<Line>, stamps: seq<Time>)
    requires |stamps| == |log|
    ensures Keyed(CompactedMap(log, stamps))
  {
    if log != [] {
      CompactionKeyed(log[..|log| - 1], stamps[..|log| - 1]);
    }
  }

  /** Replay keeps, for each live id, the last record of that id. */
  lemma {:induction false} ReplayKeepsLast(log: seq<Line>, id: TaskId) returns (w: nat)
    requires id in Replay(log)
    ensures IsLast(log, id, w) && Replay(log)[id] == log[w].task
  {
    var n := |log| - 1;
    var init, l := log[..n], log[n];
    assert log == init + [l];
    if l.Record? && l.task.id == id {
      w := n;
    } else {
      w := ReplayKeepsLast(init, id);
      InRunExtends(init, l, id, w);
      forall j | w < j < |log| && log[j].Record? ensures log[j].task.id != id {
        if j < n { assert init[j] == log[j]; }
      }
    }
  }

  /** Compaction keeps, for each live id, the earliest of the most recently parsed
      live lines after the id's last tombstone. */
  lemma {:induction false} CompactionKeepsWinner(log: seq<Line>, stamps: seq<Time>, id: TaskId) returns (w: nat)
    requires |stamps| == |log| && id in Compact(log, stamps)
    ensures IsWinner(log, stamps, id, w) && Compact(log, stamps)[id] == Kept(log[w].task, stamps[w])
  {
    var n := |log| - 1;
    var init, l := log[..n], log[n];
    var before := Compact(init, stamps[..n]);
    assert log == init + [l];
    forall j | 0 <= j < n ensures InRun(log, id, j) <==> InRun(init, id, j) && !(IsTombstone(l) && l.task.id == id) {
      InRunExtends(init, l, id, j);
    }
    if id !in before {
      w := n;
      forall j | 0 <= j < n ensures !InRun(log, id, j) {
        if InRun(init, id, j) { RunIsKept(init, stamps[..n], id, j); }
      }
    } else {
      var v := CompactionKeepsWinner(init, stamps[..n], id);
      assert forall j | 0 <= j < n :: stamps[..n][j] == stamps[j];
      w := if IsLive(l) && l.task.id == id && stamps[v] < stamps[n] then n else v;
      if w == n {
        forall j | 0 <= j < n && InRun(log, id, j) ensures stamps[j] < stamps[n] {
          assert InRun(init, id, j);
        }
      } else {
        assert InRun(init, id, v);
        forall j | v < j < |log| && InRun(log, id, j) ensures stamps[j] <= stamps[v] {
          if j < n { assert InRun(init, id, j); }
        }
        forall j | 0 <= j < v && InRun(log, id, j) ensures stamps[j] < stamps[v] {
          assert InRun(init, id, j);
        }
      }
    }
  }

  lemma {:induction false} RunIsKept(log: seq<Line>, stamps: seq<Time>, id: TaskId, w: int)
    requires |stamps| == |log| && InRun(log, id, w)
    ensures id in Compact(log, stamps)
  {
    var n := |log| - 1;
    if w < n {
      assert log == log[..n] + [log[n]];
      InRunExtends(log[..n], log[n], id, w);
      RunIsKept(log[..n], stamps[..n], id, w);
    }
  }

  /** Compaction leaves the log's meaning alone exactly when, for every live id, the
      line it keeps carries the same record as the last line. */
  lemma CompactionExact(log: seq<Line>, stamps: seq<Time>)
    requires |stamps| == |log|
    ensures KeepsMeaning(log, stamps) <==>
      forall id, w, l | IsWinner(log, stamps, id, w) && IsLast(log, id, l) :: log[w].task == log[l].task
  {
    CompactionKeepsIds(log, stamps);
    if CompactedMap(log, stamps) == Replay(log) {
      forall id, w, l | IsWinner(log, stamps, id, w) && IsLast(log, id, l) ensures log[w].task == log[l].task {
        RunIsKept(log, stamps, id, w);
        var w' := CompactionKeepsWinner(log, stamps, id);
        var l' := ReplayKeepsLast(log, id);
        assert w' == w && l' == l;
      }
    }
    if forall id, w, l | IsWinner(log, stamps, id, w) && IsLast(log, id, l) :: log[w].task == log[l].task {
      forall id | id in Replay(log) ensures CompactedMap(log, stamps)[id] == Replay(log)[id] {
        var w := CompactionKeepsWinner(log, stamps, id);
        var l := ReplayKeepsLast(log, id);
      }
    }
  }

  /** Strictly increasing stamps are enough. */
  lemma CompactionPreservesMeaning(log: seq<Line>, stamps: seq<Time>)
    requires |stamps| == |log| && StampsIncrease(log, stamps)
    ensures KeepsMeaning(log, stamps)
  {
    forall id, w, l | IsWinner(log, stamps, id, w) && IsLast(log, id, l) ensures log[w].task == log[l].task {
      assert IsLive(log[w]) && IsLive(log[l]);
    }
    CompactionExact(log, stamps);
  }

  /** A tie is enough to lose an update: two saves of one task whose lines are parsed
      within one clock tick compact to the older record. */
  lemma CompactionLosesUpdateOnTie(older: Task, newer: Task, stamp: Time)
    requires older.id == newer.id && older.deletedAt.None? && newer.deletedAt.None? && older != newer
    ensures var log := [Record(older), Record(newer)];
      Replay(log)[newer.id] == newer && CompactedMap(log, [stamp, stamp])[newer.id] == older
  {
    var log := [Record(older), Record(newer)];
    assert log[..1] == [Record(older)] && log[..1][..0] == [];
    assert [stamp, stamp][..1] == [stamp] && [stamp][..0] == [];
    assert Replay(log[..1]) == map[older.id := older];
    assert Compact(log[..1], [stamp]) == map[older.id := Kept(older, stamp)];
  }

  // ---- The rewritten file ----

  /** The lines written for `m` when its ids are visited in `order`. */
  function Written(m: Live, order: seq<TaskId>): seq<Line>
    requires forall id | id in order :: id in m
  {
    if order == [] then []
    else Written(m, order[..|order| - 1]) + [Record(m[order[|order| - 1]])]
  }

  /** `order` visits every id of `m` once. */
  ghost predicate Visits(order: seq<TaskId>, m: Live) {
    && (forall id | id in order :: id in m)
    && (forall id | id in m :: id in order)
    && forall i, j | 0 <= i < j < |order| :: order[i] != order[j]
  }

  function Picked(m: Live, order: seq<TaskId>): Live {
    map id | id in m && id in order :: m[id]
  }

  lemma PickedGrows(m: Live, order: seq<TaskId>, id: TaskId)
    requires id in m
    ensures Picked(m, order + [id]) == Picked(m, order)[id := m[id]]
  {}

  lemma PickedAll(m: Live, order: seq<TaskId>)
    requires Visits(order, m)
    ensures Picked(m, order) == m
  {}

  lemma {:induction false} WrittenReplays(m: Live, order: seq<TaskId>)
    requires Keyed(m) && forall id | id in order :: id in m
    ensures Replay(Written(m, order)) == Picked(m, order)
    ensures CountLive(Written(m, order)) == |order| && CountTombstones(Written(m, order)) == 0
    ensures CountRecords(Written(m, order)) == |order|
  {
    if order != [] {
      var init, last := order[..|order| - 1], order[|order| - 1];
      WrittenReplays(m, init);
      ReplayAppend(Written(m, init), Record(m[last]));
      PickedGrows(m, init, last);
      assert order == init + [last];
    }
  }

  lemma VisitCount(order: seq<TaskId>, m: Live)
    requires Visits(order, m)
    ensures |order| == |m|
  {
    DistinctCount(order);
    assert (set id | id in order) == m.Keys;
  }

  lemma {:induction false} DistinctCount(order: seq<TaskId>)
    requires forall i, j | 0 <= i < j < |order| :: order[i] != order[j]
    ensures |set id | id in order| == |order|
  {
    if order != [] {
      var init, last := order[..|order| - 1], order[|order| - 1];
      DistinctCount(init);
      assert (set id | id in order) == (set id | id in init) + {last};
    }
  }

  /** The rewritten file, whatever its order, goes on meaning what the original did under
      every sequence of later appends exactly when compaction keeps the meaning. */
  lemma CompactedLogReplays(log: seq<Line>, stamps: seq<Time>, order: seq<TaskId>)
    requires |stamps| == |log| && Visits(order, CompactedMap(log, stamps))
    ensures var file := Written(CompactedMap(log, stamps), order);
      (forall suffix :: Replay(file + suffix) == Replay(log + suffix)) <==> KeepsMeaning(log, stamps)
  {
    var m := CompactedMap(log, stamps);
    var file := Written(m, order);
    CompactionKeyed(log, stamps);
    WrittenReplays(m, order);
    PickedAll(m, order);
    if KeepsMeaning(log, stamps) {
      forall suffix ensures Replay(file + suffix) == Replay(log + suffix) {
        ReplayConcat(log, suffix);
        ReplayConcat(file, suffix);
      }
    }
    if forall suffix :: Replay(file + suffix) == Replay(log + suffix) {
      assert file + [] == file && log + [] == log;
    }
  }
}
