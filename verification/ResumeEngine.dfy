/** `canon resume`: the resume target and the envelope counters (src/canon_systems/resume_engine.py). */
module ResumeEngine {
  import opened Text
  import opened LaneScheduler
  import opened LaneSnapshot
  import opened LaneLists
  import LaneRuns

  const PHASE_ORDER: seq<string> := ["scoper", "cursor-pilot", "implementer", "qa-gate", "release-orchestrator"]

  datatype Envelope = Envelope(
    target: Option<Target>, scanned: nat, completed: nat, degraded: seq<(string, string)>, available: bool)

  /** The resume scan passes over this row. */
  predicate Passed(scan: Scan, order: seq<string>)
    requires order != []
  {
    scan.degrade.Some? || FirstIncomplete(scan, order).None?
  }

  /** `t` is what the early-return scan finds: the first row it does not pass over. */
  ghost predicate FirstTarget(tasks: seq<Task>, scans: seq<Scan>, order: seq<string>, i: nat, t: Target)
    requires order != [] && |tasks| == |scans|
  {
    && i < |tasks| && !Passed(scans[i], order)
    && (forall j :: 0 <= j < i ==> Passed(scans[j], order))
    && t == Target(tasks[i].id, tasks[i].workstream, FirstIncomplete(scans[i], order).value)
  }

  ghost predicate IsResumeTarget(tasks: seq<Task>, scans: seq<Scan>, order: seq<string>, r: Option<Target>)
    requires order != [] && |tasks| == |scans|
  {
    match r
    case None => forall j :: 0 <= j < |tasks| ==> Passed(scans[j], order)
    case Some(t) => exists i: nat :: FirstTarget(tasks, scans, order, i, t)
  }

  /** `_compute_resume_target`. */
  method ComputeResumeTarget(tasks: seq<Task>, scans: seq<Scan>, order: seq<string>) returns (r: Option<Target>)
    requires order != [] && |tasks| == |scans|
    ensures IsResumeTarget(tasks, scans, order, r)
  {
    for i := 0 to |tasks|
      invariant forall j :: 0 <= j < i ==> Passed(scans[j], order)
    {
      if scans[i].degrade.Some? {
        continue;
      }
      var next := FirstIncomplete(scans[i], order);
      if next.Some? {
        var t := Target(tasks[i].id, tasks[i].workstream, next.value);
        assert FirstTarget(tasks, scans, order, i, t);
        return Some(t);
      }
    }
    return None;
  }

  /** The degraded rows among the first `n`, with their reasons. */
  function DegradedRows(tasks: seq<Task>, scans: seq<Scan>, n: nat): seq<(string, string)>
    requires |tasks| == |scans| && n <= |tasks|
  {
    if n == 0 then []
    else if scans[n - 1].degrade.Some? then
      DegradedRows(tasks, scans, n - 1) + [(tasks[n - 1].id, scans[n - 1].degrade.value)]
    else DegradedRows(tasks, scans, n - 1)
  }

  /** Some row answered exactly when the degraded rows are fewer than the rows. */
  lemma {:induction false} DegradedFewer(tasks: seq<Task>, scans: seq<Scan>, n: nat)
    requires |tasks| == |scans| && n <= |tasks|
    ensures |DegradedRows(tasks, scans, n)| <= n
    ensures |DegradedRows(tasks, scans, n)| < n <==> exists i :: 0 <= i < n && scans[i].degrade.None?
  {
    if n > 0 {
      DegradedFewer(tasks, scans, n - 1);
    }
  }

  /** A degraded row is listed with its reason, and no other row is. */
  lemma {:induction false} DegradedRead(tasks: seq<Task>, scans: seq<Scan>, n: nat, x: (string, string))
    requires |tasks| == |scans| && n <= |tasks|
    ensures x in DegradedRows(tasks, scans, n) <==>
            exists i :: 0 <= i < n && tasks[i].id == x.0 && scans[i].degrade == Some(x.1)
  {
    if n > 0 {
      DegradedRead(tasks, scans, n - 1, x);
    }
  }

  /** The list names the degraded rows once each, in the order of the rows. */
  lemma {:induction false} DegradedInOrder(tasks: seq<Task>, scans: seq<Scan>, n: nat) returns (rows: seq<nat>)
    requires |tasks| == |scans| && n <= |tasks|
    ensures forall i, j :: 0 <= i < j < |rows| ==> rows[i] < rows[j]
    ensures forall i: nat :: i in rows <==> i < n && scans[i].degrade.Some?
    ensures |DegradedRows(tasks, scans, n)| == |rows|
    ensures forall k :: 0 <= k < |rows| ==>
              && rows[k] < n && DegradedRows(tasks, scans, n)[k].0 == tasks[rows[k]].id
              && scans[rows[k]].degrade == Some(DegradedRows(tasks, scans, n)[k].1)
  {
    rows := [];
    if n > 0 {
      rows := DegradedInOrder(tasks, scans, n - 1);
      if scans[n - 1].degrade.Some? {
        rows := rows + [n - 1];
      }
    }
  }

  method ListDegraded(tasks: seq<Task>, scans: seq<Scan>) returns (degraded: seq<(string, string)>)
    requires |tasks| == |scans|
    ensures degraded == DegradedRows(tasks, scans, |tasks|)
  {
    degraded := [];
    for i := 0 to |tasks|
      invariant degraded == DegradedRows(tasks, scans, i)
    {
      if scans[i].degrade.Some? {
        degraded := degraded + [(tasks[i].id, scans[i].degrade.value)];
      }
    }
  }

  /** The sum over scans: the rows that answered that their last phase is completed. */
  method CountCompleted(tasks: seq<Task>, scans: seq<Scan>, order: seq<string>) returns (completed: nat)
    requires order != [] && |tasks| == |scans|
    ensures completed == TopRows(scans, order, |scans|)
  {
    completed := 0;
    for i := 0 to |tasks|
      invariant completed == TopRows(scans, order, i)
    {
      if scans[i].degrade.None? && scans[i].phase == Some(order[|order| - 1]) && scans[i].status == Some(Completed) {
        completed := completed + 1;
      }
    }
  }

  /** `_build_envelope` without the lane fields. */
  method BuildEnvelope(tasks: seq<Task>, scans: seq<Scan>, order: seq<string>) returns (env: Envelope)
    requires order != [] && |tasks| == |scans|
    ensures IsResumeTarget(tasks, scans, order, env.target)
    ensures env.scanned == |tasks|
    ensures env.completed == TopRows(scans, order, |scans|)
    ensures env.degraded == DegradedRows(tasks, scans, |tasks|)
    ensures env.available <==> env.target.Some?
  {
    var target := ComputeResumeTarget(tasks, scans, order);
    var degraded := ListDegraded(tasks, scans);
    var completed := CountCompleted(tasks, scans, order);
    DegradedFewer(tasks, scans, |tasks|);
    if target.Some? {
      ghost var i: nat :| FirstTarget(tasks, scans, order, i, target.value);
      assert scans[i].degrade.None?;
    }
    env := Envelope(target, |tasks|, completed, degraded, target.Some? && |degraded| < |tasks|);
  }

  /** A row has something to do: it answered, and there is a phase to work on. */
  ghost predicate HasWork(scan: Scan, order: seq<string>)
    requires order != []
  {
    scan.degrade.None? && exists p :: ToDo(scan, order, p)
  }

  lemma PassedReads(scan: Scan, order: seq<string>)
    requires order != []
    ensures Passed(scan, order) <==> !HasWork(scan, order)
  {
    if scan.degrade.None? {
      if FirstIncomplete(scan, order).Some? {
        NextReads(scan, order);
      } else {
        NothingToDo(scan, order);
      }
    }
  }

  /** The target is the first row with something to do, with the phase to work on; there is none exactly when no row has
      anything to do. */
  lemma TargetReads(tasks: seq<Task>, scans: seq<Scan>, order: seq<string>, r: Option<Target>)
    requires order != [] && |tasks| == |scans| && IsResumeTarget(tasks, scans, order, r)
    ensures r.None? <==> forall j :: 0 <= j < |scans| ==> !HasWork(scans[j], order)
    ensures r.Some? ==>
      exists i: nat :: i < |tasks| && HasWork(scans[i], order) && TargetOf(tasks, scans, order, i, r.value) &&
                       forall j :: 0 <= j < i ==> !HasWork(scans[j], order)
  {
    forall j | 0 <= j < |scans| ensures Passed(scans[j], order) <==> !HasWork(scans[j], order) {
      PassedReads(scans[j], order);
    }
    if r.Some? {
      var i: nat :| FirstTarget(tasks, scans, order, i, r.value);
      NextReads(scans[i], order);
      assert TargetOf(tasks, scans, order, i, r.value);
    }
  }

  predicate LastPhaseOnce(order: seq<string>) {
    order != [] && order[|order| - 1] !in order[..|order| - 1]
  }

  lemma PhasesDistinct()
    ensures LaneRuns.NoDupPhases(PHASE_ORDER) && LastPhaseOnce(PHASE_ORDER)
  {
    assert |PHASE_ORDER[0]| == 6 && |PHASE_ORDER[1]| == 12 && |PHASE_ORDER[2]| == 11;
    assert |PHASE_ORDER[3]| == 7 && |PHASE_ORDER[4]| == 20;
  }

  /** Which phase a completed one hands over to. */
  predicate HandsTo(phase: string, next: string) {
    || (phase == "scoper" && next == "cursor-pilot") || (phase == "cursor-pilot" && next == "implementer")
    || (phase == "implementer" && next == "qa-gate") || (phase == "qa-gate" && next == "release-orchestrator")
  }

  predicate Canonical(phase: string) {
    || phase == "scoper" || phase == "cursor-pilot" || phase == "implementer" || phase == "qa-gate"
    || phase == "release-orchestrator"
  }

  /** In the canonical order: a row of no known phase starts with the scoper, a completed phase hands over to the next,
      and any other is taken up again. */
  lemma CanonicalToDo(scan: Scan, p: string)
    ensures (scan.phase.None? || !Canonical(scan.phase.value)) ==> (ToDo(scan, PHASE_ORDER, p) <==> p == "scoper")
    ensures scan.phase.Some? && Canonical(scan.phase.value) ==>
              (ToDo(scan, PHASE_ORDER, p) <==> if scan.status == Some(Completed) then HandsTo(scan.phase.value, p)
                                               else p == scan.phase.value)
    ensures AtTop(scan, PHASE_ORDER) <==>
            scan.degrade.None? && scan.phase == Some("release-orchestrator") && scan.status == Some(Completed)
  {
    PhasesDistinct();
    CanonicalAt();
    if scan.phase.Some? && Canonical(scan.phase.value) {
      var k :| 0 <= k < 5 && PHASE_ORDER[k] == scan.phase.value;
      assert StandsAt(scan, PHASE_ORDER, k);
      assert forall j :: 0 <= j < 5 && StandsAt(scan, PHASE_ORDER, j) ==> j == k;
    }
  }

  lemma CanonicalAt()
    ensures |PHASE_ORDER| == 5 && PHASE_ORDER[0] == "scoper" && PHASE_ORDER[1] == "cursor-pilot"
    ensures PHASE_ORDER[2] == "implementer" && PHASE_ORDER[3] == "qa-gate" && PHASE_ORDER[4] == "release-orchestrator"
  {
  }

  /** The resume target and the lanes agree: no target exactly when every row that answered is complete;
      otherwise the target's row is listed with the same phase as runnable or active, or is blocked on a
      dependency, and every earlier row is degraded or complete. */
  lemma ResumeAgreesWithLanes(tasks: seq<Task>, scans: seq<Scan>, order: seq<string>, r: Option<Target>)
    requires LastPhaseOnce(order) && |tasks| == |scans|
    requires IsResumeTarget(tasks, scans, order, r)
    ensures r.None? <==> forall i :: 0 <= i < |scans| ==> scans[i].degrade.Some? || Done(scans[i], order)
    ensures r.Some? ==> exists i: nat :: i < |tasks| && LaneServes(tasks, scans, order, i, r.value)
  {
    forall i | 0 <= i < |scans|
      ensures Passed(scans[i], order) <==> scans[i].degrade.Some? || Done(scans[i], order)
    {
      PassedIff(scans[i], order);
    }
    if r.Some? {
      var i: nat :| FirstTarget(tasks, scans, order, i, r.value);
      NeverSkipped(tasks, scans, order, i);
      assert LaneServes(tasks, scans, order, i, r.value);
    }
  }

  lemma PassedIff(scan: Scan, order: seq<string>)
    requires LastPhaseOnce(order)
    ensures Passed(scan, order) <==> scan.degrade.Some? || Done(scan, order)
  {
    if scan.degrade.None? {
      if FullyComplete(scan, order) {
        CompleteMeansNoNextIff(scan, order);
      } else if FirstIncomplete(scan, order).None? {
        NoNextMeansComplete(scan, order);
      }
    }
  }

  ghost predicate LaneServes(tasks: seq<Task>, scans: seq<Scan>, order: seq<string>, i: nat, t: Target)
    requires order != [] && |tasks| == |scans| && i < |tasks|
  {
    var lane := RowLane(tasks, scans, order, i);
    && t.id == tasks[i].id && t.workstream == tasks[i].workstream
    && (lane == RunnableLane(t.phase) || lane == ActiveLane(t.phase) || lane.DependencyLane?)
    && (forall j :: 0 <= j < i ==> scans[j].degrade.Some? || Done(scans[j], order))
  }
}
