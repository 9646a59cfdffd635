/** Whole runs driven by the snapshot classifier: start what it calls runnable, finish what it calls active. */
module LaneRuns {
  import opened Text
  import opened LaneScheduler
  import opened LaneSnapshot

  /** A plan the runs range over: phases in a fixed order without repetition, task ids without repetition. */
  predicate Plan(tasks: seq<Task>, order: seq<string>) {
    order != [] && NoDupPhases(order) && UniqueIds(tasks)
  }

  predicate NoDupPhases(order: seq<string>) {
    forall i, j :: 0 <= i < j < |order| ==> order[i] != order[j]
  }

  datatype Move = Begin(row: nat) | Finish(row: nat)

  predicate CanMove(tasks: seq<Task>, scans: seq<Scan>, order: seq<string>, m: Move)
    requires order != [] && |tasks| == |scans|
  {
    m.row < |tasks| &&
    match m
    case Begin(i) => RowLane(tasks, scans, order, i).RunnableLane?
    case Finish(i) => RowLane(tasks, scans, order, i).ActiveLane?
  }

  /** The checkpoint a worker writes: the phase the lane names, in progress or completed. */
  function AfterMove(tasks: seq<Task>, scans: seq<Scan>, order: seq<string>, m: Move): (r: seq<Scan>)
    requires order != [] && |tasks| == |scans| && CanMove(tasks, scans, order, m)
    ensures |r| == |scans|
  {
    var phase := RowLane(tasks, scans, order, m.row).phase;
    scans[m.row := Scan(Some(phase), Some(if m.Begin? then InProgress else Completed), None)]
  }

  ghost predicate CanRun(tasks: seq<Task>, scans: seq<Scan>, order: seq<string>, run: seq<Move>)
    requires order != [] && |tasks| == |scans|
    decreases |run|
  {
    run == [] ||
    (CanMove(tasks, scans, order, run[0]) && CanRun(tasks, AfterMove(tasks, scans, order, run[0]), order, run[1..]))
  }

  function After(tasks: seq<Task>, scans: seq<Scan>, order: seq<string>, run: seq<Move>): (r: seq<Scan>)
    requires order != [] && |tasks| == |scans| && CanRun(tasks, scans, order, run)
    ensures |r| == |scans|
    decreases |run|
  {
    if run == [] then scans else After(tasks, AfterMove(tasks, scans, order, run[0]), order, run[1..])
  }

  /** No task begun: every checkpoint lookup finds nothing. */
  function NotBegun(n: nat): (r: seq<Scan>)
    ensures |r| == n
  {
    seq(n, _ => Scan(None, None, None))
  }

  // ---- Checkpoints as positions on the phase ladder -----------------------------

  /** Twice the number of completed phases, plus one while a phase is in progress. */
  function Position(scan: Scan, order: seq<string>): nat {
    if scan.phase.None? || scan.phase.value !in order then 0
    else 2 * IndexOf(order, scan.phase.value) + (if scan.status == Some(Completed) then 2 else 1)
  }

  /** The checkpoints runs produce. */
  predicate OnLadder(scan: Scan, order: seq<string>) {
    && scan.degrade.None?
    && (scan == Scan(None, None, None) ||
        (scan.phase.Some? && scan.phase.value in order &&
         (scan.status == Some(InProgress) || scan.status == Some(Completed))))
  }

  lemma {:induction false} IndexOfUnique(order: seq<string>, k: nat)
    requires NoDupPhases(order) && k < |order|
    ensures order[k] in order && IndexOf(order, order[k]) == k
  {
    var j := IndexOf(order, order[k]);
    assert order[j] == order[k];
  }

  lemma DoneIffTop(scan: Scan, order: seq<string>)
    requires order != [] && NoDupPhases(order) && OnLadder(scan, order)
    ensures Position(scan, order) <= 2 * |order|
    ensures Done(scan, order) <==> Position(scan, order) == 2 * |order|
  {
    IndexOfUnique(order, |order| - 1);
  }

  /** A move climbs its row by exactly one and leaves the row on the ladder. */
  lemma MoveClimbs(tasks: seq<Task>, scans: seq<Scan>, order: seq<string>, m: Move)
    requires order != [] && NoDupPhases(order) && |tasks| == |scans| && CanMove(tasks, scans, order, m)
    requires OnLadder(scans[m.row], order)
    ensures var after := AfterMove(tasks, scans, order, m)[m.row];
            OnLadder(after, order) && Position(after, order) == Position(scans[m.row], order) + 1
  {
    var scan := scans[m.row];
    IndexOfUnique(order, 0);
    if scan.phase.Some? {
      var k := IndexOf(order, scan.phase.value);
      if k + 1 < |order| {
        IndexOfUnique(order, k + 1);
      }
    }
  }

  function Total(scans: seq<Scan>, order: seq<string>): nat {
    if scans == [] then 0 else Position(scans[0], order) + Total(scans[1..], order)
  }

  lemma {:induction false} TotalUpdate(scans: seq<Scan>, order: seq<string>, i: nat, scan: Scan)
    requires i < |scans|
    ensures Total(scans[i := scan], order) == Total(scans, order) - Position(scans[i], order) + Position(scan, order)
  {
    if i > 0 {
      TotalUpdate(scans[1..], order, i - 1, scan);
      assert scans[i := scan][1..] == scans[1..][i - 1 := scan];
    } else {
      assert scans[i := scan][1..] == scans[1..];
    }
  }

  lemma {:induction false} TotalBound(scans: seq<Scan>, order: seq<string>, top: nat)
    requires forall i :: 0 <= i < |scans| ==> Position(scans[i], order) <= top
    ensures Total(scans, order) <= top * |scans|
    ensures (forall i :: 0 <= i < |scans| ==> Position(scans[i], order) == top) ==> Total(scans, order) == top * |scans|
  {
    if scans != [] {
      var rest := scans[1..];
      assert forall i :: 0 <= i < |rest| ==> rest[i] == scans[i + 1];
      TotalBound(rest, order, top);
      OneMoreRow(top, |rest|);
    }
  }

  lemma OneMoreRow(top: nat, n: nat)
    ensures top * (n + 1) == top + top * n
  {
  }

  // ---- The invariant ---------------------------------------------------------------

  predicate Begun(scan: Scan) {
    scan.phase.Some?
  }

  /** Every dependency of row `i` names a complete row. */
  predicate DepsComplete(tasks: seq<Task>, scans: seq<Scan>, order: seq<string>, i: nat)
    requires order != [] && |tasks| == |scans| && i < |tasks|
  {
    forall k :: 0 <= k < |tasks[i].dependsOn| ==> tasks[i].dependsOn[k] in CompleteIds(tasks, scans, order)
  }

  predicate Inv(tasks: seq<Task>, scans: seq<Scan>, order: seq<string>)
    requires order != [] && |tasks| == |scans|
  {
    && (forall i :: 0 <= i < |scans| ==> OnLadder(scans[i], order))
    && (forall i :: 0 <= i < |scans| && Begun(scans[i]) ==> DepsComplete(tasks, scans, order, i))
  }

  /** Complete rows stay complete and begun rows stay begun. */
  predicate Grows(scans: seq<Scan>, later: seq<Scan>, order: seq<string>)
    requires order != [] && |scans| == |later|
  {
    && (forall i :: 0 <= i < |scans| && Done(scans[i], order) ==> Done(later[i], order))
    && (forall i :: 0 <= i < |scans| && Begun(scans[i]) ==> Begun(later[i]))
  }

  lemma CompleteIdsGrow(tasks: seq<Task>, scans: seq<Scan>, later: seq<Scan>, order: seq<string>)
    requires order != [] && |tasks| == |scans| == |later| && Grows(scans, later, order)
    ensures CompleteIds(tasks, scans, order) <= CompleteIds(tasks, later, order)
  {
  }

  lemma {:induction false} MoveInv(tasks: seq<Task>, scans: seq<Scan>, order: seq<string>, m: Move)
    requires Plan(tasks, order) && |tasks| == |scans| && CanMove(tasks, scans, order, m)
    requires Inv(tasks, scans, order)
    ensures var later := AfterMove(tasks, scans, order, m);
            && Inv(tasks, later, order) && Grows(scans, later, order)
            && Total(later, order) == Total(scans, order) + 1
  {
    var later := AfterMove(tasks, scans, order, m);
    MoveClimbs(tasks, scans, order, m);
    TotalUpdate(scans, order, m.row, later[m.row]);
    NeverSkipped(tasks, scans, order, m.row);
    CompleteIdsGrow(tasks, scans, later, order);
    forall i | 0 <= i < |later| && Begun(later[i]) ensures DepsComplete(tasks, later, order, i) {
      if i == m.row {
        ActiveIsBegun(tasks, scans, order, i);
        forall k | 0 <= k < |tasks[i].dependsOn|
          ensures tasks[i].dependsOn[k] in CompleteIds(tasks, scans, order)
        {
          assert tasks[i].dependsOn[k] in tasks[i].dependsOn;
          if m.Finish? { assert DepsComplete(tasks, scans, order, i); }
        }
      } else {
        assert DepsComplete(tasks, scans, order, i);
      }
    }
  }

  lemma ActiveIsBegun(tasks: seq<Task>, scans: seq<Scan>, order: seq<string>, i: nat)
    requires order != [] && |tasks| == |scans| && i < |tasks| && OnLadder(scans[i], order)
    ensures RowLane(tasks, scans, order, i).ActiveLane? ==> Begun(scans[i])
  {
  }

  lemma {:induction false} RunInv(tasks: seq<Task>, scans: seq<Scan>, order: seq<string>, run: seq<Move>)
    requires Plan(tasks, order) && |tasks| == |scans| && Inv(tasks, scans, order)
    requires CanRun(tasks, scans, order, run)
    ensures var later := After(tasks, scans, order, run);
            && Inv(tasks, later, order) && Grows(scans, later, order)
            && Total(later, order) == Total(scans, order) + |run|
    decreases |run|
  {
    if run != [] {
      MoveInv(tasks, scans, order, run[0]);
      RunInv(tasks, AfterMove(tasks, scans, order, run[0]), order, run[1..]);
    }
  }

  lemma StartInv(tasks: seq<Task>, order: seq<string>)
    requires order != []
    ensures Inv(tasks, NotBegun(|tasks|), order)
    ensures Total(NotBegun(|tasks|), order) == 0
  {
    var s := NotBegun(|tasks|);
    forall i | 0 <= i < |s| ensures Position(s[i], order) <= 0 {}
    TotalBound(s, order, 0);
  }

  // ---- Theorems over whole runs -----------------------------------------------------

  /** The moves of a complete run: each task starts and finishes each phase once. */
  function FullLength(order: seq<string>, n: nat): nat {
    2 * |order| * n
  }

  lemma LadderBound(scans: seq<Scan>, order: seq<string>)
    requires order != [] && NoDupPhases(order) && forall i :: 0 <= i < |scans| ==> OnLadder(scans[i], order)
    ensures Total(scans, order) <= FullLength(order, |scans|)
    ensures (forall i :: 0 <= i < |scans| ==> Done(scans[i], order)) ==>
              Total(scans, order) == FullLength(order, |scans|)
  {
    forall i | 0 <= i < |scans|
      ensures Position(scans[i], order) <= 2 * |order|
      ensures Done(scans[i], order) <==> Position(scans[i], order) == 2 * |order|
    {
      DoneIffTop(scans[i], order);
    }
    TotalBound(scans, order, 2 * |order|);
  }

  /** Safety at every point of every run: a task that has begun has all its dependencies complete. */
  lemma BegunMeansDepsComplete(tasks: seq<Task>, order: seq<string>, run: seq<Move>)
    requires Plan(tasks, order) && CanRun(tasks, NotBegun(|tasks|), order, run)
    ensures var mid := After(tasks, NotBegun(|tasks|), order, run);
            forall i :: 0 <= i < |tasks| && Begun(mid[i]) ==> DepsComplete(tasks, mid, order, i)
    ensures |run| <= FullLength(order, |tasks|)
  {
    StartInv(tasks, order);
    RunInv(tasks, NotBegun(|tasks|), order, run);
    LadderBound(After(tasks, NotBegun(|tasks|), order, run), order);
  }

  /** From any point of a run on, the complete set only grows. */
  lemma CompleteSetGrows(tasks: seq<Task>, order: seq<string>, run: seq<Move>, more: seq<Move>)
    requires Plan(tasks, order) && CanRun(tasks, NotBegun(|tasks|), order, run)
    requires CanRun(tasks, After(tasks, NotBegun(|tasks|), order, run), order, more)
    ensures var mid := After(tasks, NotBegun(|tasks|), order, run);
            CompleteIds(tasks, mid, order) <= CompleteIds(tasks, After(tasks, mid, order, more), order)
  {
    StartInv(tasks, order);
    RunInv(tasks, NotBegun(|tasks|), order, run);
    var mid := After(tasks, NotBegun(|tasks|), order, run);
    RunInv(tasks, mid, order, more);
    CompleteIdsGrow(tasks, mid, After(tasks, mid, order, more), order);
  }

  ghost predicate Maximal(tasks: seq<Task>, order: seq<string>, run: seq<Move>)
    requires order != []
  {
    CanRun(tasks, NotBegun(|tasks|), order, run) &&
    Stuck(tasks, After(tasks, NotBegun(|tasks|), order, run), order)
  }

  ghost predicate Finishes(tasks: seq<Task>, order: seq<string>, run: seq<Move>)
    requires order != [] && CanRun(tasks, NotBegun(|tasks|), order, run)
  {
    var end := After(tasks, NotBegun(|tasks|), order, run);
    forall i :: 0 <= i < |tasks| ==> Done(end[i], order)
  }

  /** Liveness: on a graph with known dependencies and no cycle every maximal run completes every task, in
      exactly 2 * phases * tasks moves. */
  lemma MaximalRunsFinish(tasks: seq<Task>, order: seq<string>, run: seq<Move>)
    requires Plan(tasks, order) && KnownDeps(tasks) && Acyclic(tasks)
    requires Maximal(tasks, order, run)
    ensures Finishes(tasks, order, run)
    ensures |run| == FullLength(order, |tasks|)
  {
    var end := After(tasks, NotBegun(|tasks|), order, run);
    StartInv(tasks, order);
    RunInv(tasks, NotBegun(|tasks|), order, run);
    assert NothingDegraded(end);
    SnapshotProgress(tasks, end, order);
    LadderBound(end, order);
  }

  // ---- The graph condition is exact ---------------------------------------------------

  /** Rows that can never begin: each has a dependency no row provides, or one provided only by a row of the set. */
  ghost predicate Doomed(tasks: seq<Task>, rows: set<nat>) {
    forall i :: i in rows ==>
      (i < |tasks| && exists k :: 0 <= k < |tasks[i].dependsOn| && DoomedDep(tasks, rows, tasks[i].dependsOn[k]))
  }

  ghost predicate DoomedDep(tasks: seq<Task>, rows: set<nat>, dep: string) {
    forall j :: 0 <= j < |tasks| && tasks[j].id == dep ==> j in rows
  }

  ghost predicate NoneBegun(scans: seq<Scan>, rows: set<nat>) {
    forall i :: i in rows && i < |scans| ==> !Begun(scans[i])
  }

  lemma {:induction false} DoomedNeverBegin(tasks: seq<Task>, scans: seq<Scan>, order: seq<string>, run: seq<Move>,
                                            rows: set<nat>)
    requires Plan(tasks, order) && |tasks| == |scans| && Inv(tasks, scans, order)
    requires CanRun(tasks, scans, order, run) && Doomed(tasks, rows) && NoneBegun(scans, rows)
    ensures NoneBegun(After(tasks, scans, order, run), rows)
    decreases |run|
  {
    if run != [] {
      var m := run[0];
      if m.row in rows {
        DoomedCannotMove(tasks, scans, order, m, rows);
      }
      MoveInv(tasks, scans, order, m);
      DoomedNeverBegin(tasks, AfterMove(tasks, scans, order, m), order, run[1..], rows);
    }
  }

  lemma DoomedCannotMove(tasks: seq<Task>, scans: seq<Scan>, order: seq<string>, m: Move, rows: set<nat>)
    requires Plan(tasks, order) && |tasks| == |scans| && Inv(tasks, scans, order)
    requires Doomed(tasks, rows) && NoneBegun(scans, rows) && m.row in rows
    ensures !CanMove(tasks, scans, order, m)
  {
    var i := m.row;
    ActiveIsBegun(tasks, scans, order, i);
    NeverSkipped(tasks, scans, order, i);
    var k :| 0 <= k < |tasks[i].dependsOn| && DoomedDep(tasks, rows, tasks[i].dependsOn[k]);
    assert tasks[i].dependsOn[k] in tasks[i].dependsOn;
    DoomedDepNotComplete(tasks, scans, order, rows, tasks[i].dependsOn[k]);
  }

  lemma DoomedDepNotComplete(tasks: seq<Task>, scans: seq<Scan>, order: seq<string>, rows: set<nat>, dep: string)
    requires Plan(tasks, order) && |tasks| == |scans|
    requires DoomedDep(tasks, rows, dep) && NoneBegun(scans, rows)
    ensures dep !in CompleteIds(tasks, scans, order)
  {
    forall j | 0 <= j < |tasks| && Done(scans[j], order) ensures tasks[j].id != dep {
      assert Begun(scans[j]);
    }
  }

  /** Some maximal run exists from every state: runs are bounded. */
  lemma {:induction false} RunOn(tasks: seq<Task>, scans: seq<Scan>, order: seq<string>) returns (run: seq<Move>)
    requires Plan(tasks, order) && |tasks| == |scans| && Inv(tasks, scans, order)
    ensures CanRun(tasks, scans, order, run) && Stuck(tasks, After(tasks, scans, order, run), order)
    decreases FullLength(order, |scans|) - Total(scans, order)
  {
    if i: nat :| i < |tasks| &&
                 (RowLane(tasks, scans, order, i).RunnableLane? || RowLane(tasks, scans, order, i).ActiveLane?) {
      var m := if RowLane(tasks, scans, order, i).RunnableLane? then Begin(i) else Finish(i);
      var later := AfterMove(tasks, scans, order, m);
      MoveInv(tasks, scans, order, m);
      LadderBound(later, order);
      var rest := RunOn(tasks, later, order);
      run := [m] + rest;
      assert run[1..] == rest;
    } else {
      run := [];
    }
  }

  /** A cycle or an unknown dependency dooms some rows. */
  lemma BadGraphDooms(tasks: seq<Task>) returns (rows: set<nat>)
    requires UniqueIds(tasks) && !(KnownDeps(tasks) && Acyclic(tasks))
    ensures rows != {} && Doomed(tasks, rows)
  {
    if !KnownDeps(tasks) {
      var i, k :| 0 <= i < |tasks| && 0 <= k < |tasks[i].dependsOn| && tasks[i].dependsOn[k] !in KnownIds(tasks);
      rows := {i};
      assert DoomedDep(tasks, rows, tasks[i].dependsOn[k]);
    } else {
      var p :| Cycle(tasks, p);
      rows := set k | 0 <= k < |p| :: p[k];
      assert p[0] in rows;
      forall i | i in rows
        ensures i < |tasks| &&
                exists k :: 0 <= k < |tasks[i].dependsOn| && DoomedDep(tasks, rows, tasks[i].dependsOn[k])
      {
        var c :| 0 <= c < |p| && p[c] == i;
        CycleStep(tasks, p, c, rows);
      }
    }
  }

  lemma CycleStep(tasks: seq<Task>, p: seq<nat>, c: nat, rows: set<nat>)
    requires UniqueIds(tasks) && Cycle(tasks, p) && c < |p| && forall k :: 0 <= k < |p| ==> p[k] in rows
    ensures exists k :: 0 <= k < |tasks[p[c]].dependsOn| && DoomedDep(tasks, rows, tasks[p[c]].dependsOn[k])
  {
    var d := if c == |p| - 1 then 0 else c;
    assert p[d] == p[c];
    assert Edge(tasks, p[d], p[d + 1]);
    var deps, j := tasks[p[d]].dependsOn, p[d + 1];
    var k :| 0 <= k < |deps| && deps[k] == tasks[j].id;
    assert DoomedDep(tasks, rows, deps[k]) by {
      forall h | 0 <= h < |tasks| && tasks[h].id == deps[k] ensures h in rows {
        assert h == j;
      }
    }
  }

  /** Exactly the graphs with known dependencies and no cycle are the ones all maximal runs finish. */
  lemma MaximalRunsFinishIff(tasks: seq<Task>, order: seq<string>)
    requires Plan(tasks, order)
    ensures KnownDeps(tasks) && Acyclic(tasks) <==>
            forall run :: Maximal(tasks, order, run) ==> Finishes(tasks, order, run)
  {
    if KnownDeps(tasks) && Acyclic(tasks) {
      forall run | Maximal(tasks, order, run) ensures Finishes(tasks, order, run) {
        MaximalRunsFinish(tasks, order, run);
      }
    } else {
      var start := NotBegun(|tasks|);
      StartInv(tasks, order);
      var rows := BadGraphDooms(tasks);
      var run := RunOn(tasks, start, order);
      assert Maximal(tasks, order, run);
      DoomedNeverBegin(tasks, start, order, run, rows);
      var i :| i in rows;
      assert !Begun(After(tasks, start, order, run)[i]);
      assert !Finishes(tasks, order, run);
    }
  }
}
