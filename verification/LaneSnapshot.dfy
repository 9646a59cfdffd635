/** What one snapshot guarantees: a partition of the rows, and progress on an acyclic graph. */
module LaneSnapshot {
  import opened Text
  import opened Sorting
  import opened LaneScheduler

  /** The skip on `next_phase is None` is dead code: such a row was already found complete. */
  lemma NoNextMeansComplete(scan: Scan, order: seq<string>)
    requires order != [] && FirstIncomplete(scan, order).None?
    ensures FullyComplete(scan, order)
  {
  }

  /** The converse needs the last phase not to occur earlier in the order. */
  lemma CompleteMeansNoNextIff(scan: Scan, order: seq<string>)
    requires order != [] && FullyComplete(scan, order)
    ensures FirstIncomplete(scan, order).None? <==> order[|order| - 1] !in order[..|order| - 1]
  {
    var last := order[|order| - 1];
    var k := IndexOf(order, last);
    if k < |order| - 1 {
      assert order[..|order| - 1][k] == last;
    }
  }

  function CompleteEntry(task: Task, lane: Lane): Option<string> {
    if lane.CompleteLane? then Some(task.id) else None
  }

  lemma NeverSkipped(tasks: seq<Task>, scans: seq<Scan>, order: seq<string>, i: nat)
    requires order != [] && |tasks| == |scans| && i < |tasks|
    ensures !RowLane(tasks, scans, order, i).SkippedLane?
    ensures RowLane(tasks, scans, order, i).CompleteLane? <==> Done(scans[i], order)
    ensures RowLane(tasks, scans, order, i).RunnableLane? ==>
              forall d :: d in tasks[i].dependsOn ==> d in CompleteIds(tasks, scans, order)
  {
    MissingEmpty(tasks[i].dependsOn, CompleteIds(tasks, scans, order), KnownIds(tasks));
    if !scans[i].degrade.Some? && FirstIncomplete(scans[i], order).None? {
      NoNextMeansComplete(scans[i], order);
    }
  }

  /** The entries of a list of classified rows. */
  function Listed<T>(rows: seq<(Task, Lane)>, entry: (Task, Lane) -> Option<T>): seq<T> {
    if rows == [] then []
    else
      var (task, lane) := rows[|rows| - 1];
      var e := entry(task, lane);
      Listed(rows[..|rows| - 1], entry) + (if e.Some? then [e.value] else [])
  }

  function Classified(tasks: seq<Task>, scans: seq<Scan>, order: seq<string>, n: nat): (r: seq<(Task, Lane)>)
    requires order != [] && |tasks| == |scans| && n <= |tasks|
    ensures |r| == n
  {
    seq(n, i requires 0 <= i < n => (tasks[i], RowLane(tasks, scans, order, i)))
  }

  lemma {:induction false} EntriesAreListed<T>(tasks: seq<Task>, scans: seq<Scan>, order: seq<string>, n: nat,
                                               entry: (Task, Lane) -> Option<T>)
    requires order != [] && |tasks| == |scans| && n <= |tasks|
    ensures Entries(tasks, scans, order, n, entry) == Listed(Classified(tasks, scans, order, n), entry)
  {
    if n > 0 {
      EntriesAreListed(tasks, scans, order, n - 1, entry);
      assert Classified(tasks, scans, order, n)[..n - 1] == Classified(tasks, scans, order, n - 1);
    }
  }

  /** A row that is not skipped is listed exactly once. */
  lemma {:induction false} ListedOnce(rows: seq<(Task, Lane)>)
    requires forall i :: 0 <= i < |rows| ==> !rows[i].1.SkippedLane?
    ensures |Listed(rows, RunnableEntry)| + |Listed(rows, ActiveEntry)| + |Listed(rows, BlockedEntry)|
            + |Listed(rows, CompleteEntry)| == |rows|
  {
    if rows != [] {
      ListedOnce(rows[..|rows| - 1]);
    }
  }

  /** Every row is counted in exactly one of runnable, active, blocked and complete. */
  lemma {:induction false} RowsPartition(tasks: seq<Task>, scans: seq<Scan>, order: seq<string>, n: nat)
    requires order != [] && |tasks| == |scans| && n <= |tasks|
    ensures |Entries(tasks, scans, order, n, RunnableEntry)| + |Entries(tasks, scans, order, n, ActiveEntry)|
            + |Entries(tasks, scans, order, n, BlockedEntry)| + |Entries(tasks, scans, order, n, CompleteEntry)| == n
  {
    var rows := Classified(tasks, scans, order, n);
    EntriesAreListed(tasks, scans, order, n, RunnableEntry);
    EntriesAreListed(tasks, scans, order, n, ActiveEntry);
    EntriesAreListed(tasks, scans, order, n, BlockedEntry);
    EntriesAreListed(tasks, scans, order, n, CompleteEntry);
    forall i | 0 <= i < n ensures !rows[i].1.SkippedLane? {
      NeverSkipped(tasks, scans, order, i);
    }
    ListedOnce(rows);
  }

  lemma {:induction false} EntriesMember<T>(tasks: seq<Task>, scans: seq<Scan>, order: seq<string>, n: nat,
                                            entry: (Task, Lane) -> Option<T>, x: T)
    requires order != [] && |tasks| == |scans| && n <= |tasks|
    ensures x in Entries(tasks, scans, order, n, entry) <==>
            exists i: nat :: i < n && entry(tasks[i], RowLane(tasks, scans, order, i)) == Some(x)
  {
    if n > 0 {
      EntriesMember(tasks, scans, order, n - 1, entry, x);
      var e := entry(tasks[n - 1], RowLane(tasks, scans, order, n - 1));
      assert x in Entries(tasks, scans, order, n, entry) <==>
             x in Entries(tasks, scans, order, n - 1, entry) || e == Some(x);
    }
  }

  /** `list` is sorted and holds exactly the entries of the rows that have one. */
  ghost predicate Lists<T(!new)>(tasks: seq<Task>, scans: seq<Scan>, order: seq<string>,
                                 list: seq<T>, key: T -> Key, entry: (Task, Lane) -> Option<T>)
    requires order != [] && |tasks| == |scans|
  {
    && Sorted(list, key)
    && (forall x :: x in list <==>
          exists i: nat :: i < |tasks| && entry(tasks[i], RowLane(tasks, scans, order, i)) == Some(x))
  }

  lemma EntriesListed<T(!new)>(tasks: seq<Task>, scans: seq<Scan>, order: seq<string>,
                               key: T -> Key, entry: (Task, Lane) -> Option<T>)
    requires order != [] && |tasks| == |scans|
    ensures Lists(tasks, scans, order, SortBy(Entries(tasks, scans, order, |tasks|, entry), key), key, entry)
  {
    var es := Entries(tasks, scans, order, |tasks|, entry);
    SortLaws(es, key);
    SortMembers(es, key);
    forall x ensures x in SortBy(es, key) <==>
             exists i: nat :: i < |tasks| && entry(tasks[i], RowLane(tasks, scans, order, i)) == Some(x)
    {
      EntriesMember(tasks, scans, order, |tasks|, entry, x);
    }
  }

  /** The snapshot as the caller sees it: sorted lists that together account for every row, each holding
      exactly the rows of its lane. */
  lemma SnapshotPartition(tasks: seq<Task>, scans: seq<Scan>, order: seq<string>)
    requires order != [] && |tasks| == |scans|
    ensures var s := LaneStateOf(tasks, scans, order);
            && |s.runnable| + |s.active| + |s.blocked|
               + |Entries(tasks, scans, order, |tasks|, CompleteEntry)| == |tasks|
            && Lists(tasks, scans, order, s.runnable, TargetKey, RunnableEntry)
            && Lists(tasks, scans, order, s.active, TargetKey, ActiveEntry)
            && Lists(tasks, scans, order, s.blocked, BlockedKey, BlockedEntry)
  {
    RowsPartition(tasks, scans, order, |tasks|);
    EntriesListed(tasks, scans, order, TargetKey, RunnableEntry);
    EntriesListed(tasks, scans, order, TargetKey, ActiveEntry);
    EntriesListed(tasks, scans, order, BlockedKey, BlockedEntry);
  }

  // ---- Progress --------------------------------------------------------------

  predicate UniqueIds(tasks: seq<Task>) {
    forall i, j :: 0 <= i < j < |tasks| ==> tasks[i].id != tasks[j].id
  }

  predicate KnownDeps(tasks: seq<Task>) {
    forall i, k :: 0 <= i < |tasks| && 0 <= k < |tasks[i].dependsOn| ==> tasks[i].dependsOn[k] in KnownIds(tasks)
  }

  /** Row `i` depends on row `j`. */
  predicate Edge(tasks: seq<Task>, i: nat, j: nat) {
    i < |tasks| && j < |tasks| && tasks[j].id in tasks[i].dependsOn
  }

  ghost predicate Walk(tasks: seq<Task>, p: seq<nat>) {
    && (forall k :: 0 <= k < |p| ==> p[k] < |tasks|)
    && (forall k :: 0 <= k < |p| - 1 ==> Edge(tasks, p[k], p[k + 1]))
  }

  /** A closed walk along at least one dependency. */
  ghost predicate Cycle(tasks: seq<Task>, p: seq<nat>) {
    |p| >= 2 && Walk(tasks, p) && p[0] == p[|p| - 1]
  }

  ghost predicate Acyclic(tasks: seq<Task>) {
    forall p :: !Cycle(tasks, p)
  }

  lemma {:induction false} Pigeonhole(p: seq<nat>, n: nat)
    requires NoDup(p) && forall k :: 0 <= k < |p| ==> p[k] < n
    ensures |p| <= n
  {
    assert p != [] ==> p[0] < n;
    if n > 0 {
      if k :| 0 <= k < |p| && p[k] == n - 1 {
        var q := p[..k] + p[k + 1..];
        forall i | 0 <= i < |q| ensures q[i] == p[if i < k then i else i + 1] {}
        Pigeonhole(q, n - 1);
      } else {
        Pigeonhole(p, n - 1);
      }
    }
  }

  /** On an acyclic graph a walk visits no row twice, so it is no longer than the row list. */
  lemma WalkIsShort(tasks: seq<Task>, p: seq<nat>)
    requires Acyclic(tasks) && Walk(tasks, p)
    ensures |p| <= |tasks|
  {
    forall a, b | 0 <= a < b < |p| ensures p[a] != p[b] {
      var c := p[a..b + 1];
      if p[a] == p[b] {
        forall k | 0 <= k < |c| - 1 ensures Edge(tasks, c[k], c[k + 1]) {
          assert c[k] == p[a + k] && c[k + 1] == p[a + k + 1];
        }
        assert Cycle(tasks, c);
      }
    }
    Pigeonhole(p, |tasks|);
  }

  /** Every waiting row names a waiting row it depends on. */
  ghost predicate AllWait(tasks: seq<Task>, waitsFor: map<nat, nat>) {
    forall i :: i in waitsFor ==> waitsFor[i] in waitsFor && Edge(tasks, i, waitsFor[i])
  }

  lemma {:induction false} WaitingWalk(tasks: seq<Task>, waitsFor: map<nat, nat>, i: nat, n: nat) returns (p: seq<nat>)
    requires AllWait(tasks, waitsFor) && i in waitsFor
    ensures |p| == n + 1 && Walk(tasks, p) && p[0] == i
    decreases n
  {
    if n == 0 {
      p := [i];
    } else {
      var q := WaitingWalk(tasks, waitsFor, waitsFor[i], n - 1);
      p := [i] + q;
      WalkCons(tasks, i, q);
    }
  }

  lemma WalkCons(tasks: seq<Task>, i: nat, q: seq<nat>)
    requires Walk(tasks, q) && q != [] && Edge(tasks, i, q[0])
    ensures Walk(tasks, [i] + q)
  {
    var p := [i] + q;
    forall k | 0 <= k < |p| - 1 ensures Edge(tasks, p[k], p[k + 1]) {
      if k > 0 { assert p[k] == q[k - 1] && p[k + 1] == q[k]; }
    }
  }

  ghost predicate Stuck(tasks: seq<Task>, scans: seq<Scan>, order: seq<string>)
    requires order != [] && |tasks| == |scans|
  {
    forall i: nat :: i < |tasks| ==>
      !RowLane(tasks, scans, order, i).RunnableLane? && !RowLane(tasks, scans, order, i).ActiveLane?
  }

  /** A dependency-blocked row has an incomplete row among its dependencies, when they are all known. */
  lemma BlockedWaits(tasks: seq<Task>, scans: seq<Scan>, order: seq<string>, i: nat)
    requires order != [] && |tasks| == |scans| && i < |tasks| && KnownDeps(tasks)
    requires RowLane(tasks, scans, order, i).DependencyLane?
    ensures exists j: nat :: j < |tasks| && Edge(tasks, i, j) && !Done(scans[j], order)
  {
    var deps, complete := tasks[i].dependsOn, CompleteIds(tasks, scans, order);
    MissingEmpty(deps, complete, KnownIds(tasks));
    var k :| 0 <= k < |deps| && !(deps[k] in KnownIds(tasks) && deps[k] in complete);
    assert deps[k] in KnownIds(tasks);
    var j :| 0 <= j < |tasks| && tasks[j].id == deps[k];
    assert Edge(tasks, i, j);
  }

  /** The row a stuck, incomplete row is waiting for. */
  ghost function WaitsOn(tasks: seq<Task>, scans: seq<Scan>, order: seq<string>, i: nat): (j: nat)
    requires order != [] && |tasks| == |scans| && i < |tasks| && KnownDeps(tasks) && Stuck(tasks, scans, order)
    requires scans[i].degrade.None? && !Done(scans[i], order)
    ensures j < |tasks| && Edge(tasks, i, j) && !Done(scans[j], order)
  {
    NeverSkipped(tasks, scans, order, i);
    BlockedWaits(tasks, scans, order, i);
    var j: nat :| j < |tasks| && Edge(tasks, i, j) && !Done(scans[j], order);
    j
  }

  predicate NothingDegraded(scans: seq<Scan>) {
    forall i :: 0 <= i < |scans| ==> scans[i].degrade.None?
  }

  /** Progress: with nothing degraded, known dependencies and no cycle, some row is runnable or active
      until every row is complete. */
  lemma SnapshotProgress(tasks: seq<Task>, scans: seq<Scan>, order: seq<string>)
    requires order != [] && |tasks| == |scans| && NothingDegraded(scans)
    requires KnownDeps(tasks) && Acyclic(tasks)
    requires Stuck(tasks, scans, order)
    ensures forall i :: 0 <= i < |scans| ==> Done(scans[i], order)
  {
    var waiting := set i: nat | i < |tasks| && !Done(scans[i], order);
    var waitsFor := map i | i in waiting :: WaitsOn(tasks, scans, order, i);
    assert AllWait(tasks, waitsFor);
    if i :| 0 <= i < |scans| && !Done(scans[i], order) {
      assert i in waiting;
      var p := WaitingWalk(tasks, waitsFor, i, |tasks|);
      WalkIsShort(tasks, p);
    }
  }
}
