/** The multilane snapshot classifier (src/canon_systems/task_thread_scheduler.py). */
module LaneScheduler {
  import opened Text
  import opened Sorting

  /** `phase_status` as the code distinguishes it. */
  datatype Status = InProgress | Completed | OtherStatus(text: string)

  datatype Scan = Scan(phase: Option<string>, status: Option<Status>, degrade: Option<string>)

  datatype Task = Task(id: string, workstream: string, dependsOn: seq<string>, group: string)

  datatype Target = Target(id: string, workstream: string, phase: string)

  datatype Reason = Transport(detail: string) | Dependency(missing: seq<string>)

  datatype Blocked = Blocked(id: string, workstream: string, reason: Reason)

  datatype Thread = Thread(group: string, members: seq<(string, string)>)

  datatype LaneState = LaneState(
    runnable: seq<Target>, active: seq<Target>, blocked: seq<Blocked>, threads: seq<Thread>)

  // ---- Rows ------------------------------------------------------------------

  /** `phase_order.index(phase)` when present. */
  function IndexOf(order: seq<string>, phase: string): (k: nat)
    requires phase in order
    ensures k < |order| && order[k] == phase && forall j :: 0 <= j < k ==> order[j] != phase
  {
    if order[0] == phase then 0 else 1 + IndexOf(order[1..], phase)
  }

  function FirstIncomplete(scan: Scan, order: seq<string>): Option<string>
    requires order != []
  {
    if scan.phase.None? || scan.phase.value !in order then Some(order[0])
    else
      var k := IndexOf(order, scan.phase.value);
      if scan.status == Some(Completed) then
        if k + 1 >= |order| then None else Some(order[k + 1])
      else scan.phase
  }

  predicate FullyComplete(scan: Scan, order: seq<string>)
    requires order != []
  {
    scan.phase == Some(order[|order| - 1]) && scan.status == Some(Completed)
  }

  predicate Done(scan: Scan, order: seq<string>)
    requires order != []
  {
    scan.degrade.None? && FullyComplete(scan, order)
  }

  function KnownIds(tasks: seq<Task>): set<string> {
    set i | 0 <= i < |tasks| :: tasks[i].id
  }

  function CompleteIds(tasks: seq<Task>, scans: seq<Scan>, order: seq<string>): set<string>
    requires order != [] && |tasks| == |scans|
  {
    set i | 0 <= i < |tasks| && Done(scans[i], order) :: tasks[i].id
  }

  /** `_deps_satisfied`: the dependencies that are unknown or not complete, sorted. */
  function Missing(dependsOn: seq<string>, complete: set<string>, known: set<string>): seq<string> {
    SortBy(Filter(dependsOn, (d: string) => d !in known || d !in complete), (d: string) => [Codes(d)])
  }

  datatype Lane =
    | CompleteLane | SkippedLane | TransportLane(detail: string) | ActiveLane(phase: string)
    | DependencyLane(missing: seq<string>) | RunnableLane(phase: string)

  /** The branches of the classification loop, in the order the code takes them. */
  function LaneOf(task: Task, scan: Scan, complete: set<string>, known: set<string>, order: seq<string>): Lane
    requires order != []
  {
    if scan.degrade.Some? then TransportLane(scan.degrade.value)
    else if FullyComplete(scan, order) then CompleteLane
    else
      var next := FirstIncomplete(scan, order);
      if next.None? then SkippedLane
      else if scan.status == Some(InProgress) then ActiveLane(next.value)
      else
        var missing := Missing(task.dependsOn, complete, known);
        if missing != [] then DependencyLane(missing) else RunnableLane(next.value)
  }

  /** The lane of row `i` of a snapshot. */
  function RowLane(tasks: seq<Task>, scans: seq<Scan>, order: seq<string>, i: nat): Lane
    requires order != [] && |tasks| == |scans| && i < |tasks|
  {
    LaneOf(tasks[i], scans[i], CompleteIds(tasks, scans, order), KnownIds(tasks), order)
  }

  // ---- The lists the code returns ----------------------------------------------

  function RunnableEntry(task: Task, lane: Lane): Option<Target> {
    if lane.RunnableLane? then Some(Target(task.id, task.workstream, lane.phase)) else None
  }

  function ActiveEntry(task: Task, lane: Lane): Option<Target> {
    if lane.ActiveLane? then Some(Target(task.id, task.workstream, lane.phase)) else None
  }

  function BlockedEntry(task: Task, lane: Lane): Option<Blocked> {
    match lane
    case TransportLane(detail) => Some(Blocked(task.id, task.workstream, Transport(detail)))
    case DependencyLane(missing) => Some(Blocked(task.id, task.workstream, Dependency(missing)))
    case _ => None
  }

  /** The entries the loop has appended after `n` rows. */
  function Entries<T>(tasks: seq<Task>, scans: seq<Scan>, order: seq<string>, n: nat, entry: (Task, Lane) -> Option<T>)
    : (r: seq<T>)
    requires order != [] && |tasks| == |scans| && n <= |tasks|
    ensures |r| <= n
  {
    if n == 0 then []
    else
      var e := entry(tasks[n - 1], RowLane(tasks, scans, order, n - 1));
      Entries(tasks, scans, order, n - 1, entry) + (if e.Some? then [e.value] else [])
  }

  function TargetKey(t: Target): Key {
    [Codes(t.id), Codes(t.workstream), Codes(t.phase)]
  }

  /** `",".join(parts)`. */
  function Joined(parts: seq<string>): string {
    if parts == [] then "" else if |parts| == 1 then parts[0] else parts[0] + "," + Joined(parts[1..])
  }

  function BlockedKey(b: Blocked): Key {
    [Codes(b.id), Codes(b.workstream)] +
    match b.reason
    case Transport(detail) => [Codes("transport"), Codes(detail)]
    case Dependency(missing) => [Codes("dependency"), Codes(Joined(missing))]
  }

  function InGroup(g: string): Task -> bool {
    (t: Task) => t.group == g
  }

  function MemberOf(t: Task): (string, string) {
    (t.id, t.workstream)
  }

  function MemberKey(m: (string, string)): Key {
    [Codes(m.0), Codes(m.1)]
  }

  /** The blank group sorts first. */
  function GroupKey(g: string): Key {
    [[if g == "" then 0 else 1], Codes(g)]
  }

  function GroupOf(t: Task): string {
    t.group
  }

  function MembersOf(tasks: seq<Task>, g: string): seq<(string, string)> {
    SortBy(Map(Filter(tasks, InGroup(g)), MemberOf), MemberKey)
  }

  function ThreadOf(tasks: seq<Task>): string -> Thread {
    (g: string) => Thread(g, MembersOf(tasks, g))
  }

  function Threads(tasks: seq<Task>): seq<Thread> {
    Map(SortBy(Distinct(Map(tasks, GroupOf)), GroupKey), ThreadOf(tasks))
  }

  function LaneStateOf(tasks: seq<Task>, scans: seq<Scan>, order: seq<string>): LaneState
    requires order != [] && |tasks| == |scans|
  {
    var n := |tasks|;
    LaneState(
      SortBy(Entries(tasks, scans, order, n, RunnableEntry), TargetKey),
      SortBy(Entries(tasks, scans, order, n, ActiveEntry), TargetKey),
      SortBy(Entries(tasks, scans, order, n, BlockedEntry), BlockedKey),
      Threads(tasks))
  }

  // ---- The loop code -------------------------------------------------------------

  method DepsSatisfied(dependsOn: seq<string>, complete: set<string>, known: set<string>)
    returns (ok: bool, missing: seq<string>)
    ensures missing == Missing(dependsOn, complete, known)
    ensures ok <==> forall i :: 0 <= i < |dependsOn| ==> dependsOn[i] in known && dependsOn[i] in complete
    ensures ok <==> missing == []
  {
    var absent := (d: string) => d !in known || d !in complete;
    var found: seq<string> := [];
    for i := 0 to |dependsOn|
      invariant found == Filter(dependsOn[..i], absent)
      invariant found == [] <==> forall j :: 0 <= j < i ==> dependsOn[j] in known && dependsOn[j] in complete
    {
      ghost var rest := FilterSplit(dependsOn, i, absent);
      if dependsOn[i] !in known {
        found := found + [dependsOn[i]];
      } else if dependsOn[i] !in complete {
        found := found + [dependsOn[i]];
      }
    }
    assert dependsOn[..|dependsOn|] == dependsOn;
    ok := |found| == 0;
    missing := SortBy(found, (d: string) => [Codes(d)]);
  }

  method FindCompleteIds(tasks: seq<Task>, scans: seq<Scan>, order: seq<string>) returns (complete: set<string>)
    requires order != [] && |tasks| == |scans|
    ensures complete == CompleteIds(tasks, scans, order)
  {
    complete := {};
    for i := 0 to |tasks|
      invariant complete == set j | 0 <= j < i && Done(scans[j], order) :: tasks[j].id
    {
      if scans[i].degrade.None? && FullyComplete(scans[i], order) {
        complete := complete + {tasks[i].id};
      }
    }
  }

  /** `compute_lane_state`; None is the ValueError for lists of different lengths. */
  method ComputeLaneState(tasks: seq<Task>, scans: seq<Scan>, order: seq<string>) returns (r: Option<LaneState>)
    requires order != []
    ensures r == if |tasks| == |scans| then Some(LaneStateOf(tasks, scans, order)) else None
  {
    if |tasks| != |scans| {
      return None;
    }
    var complete := FindCompleteIds(tasks, scans, order);
    var known := set i | 0 <= i < |tasks| :: tasks[i].id;
    var runnable: seq<Target>, active: seq<Target>, blocked: seq<Blocked> := [], [], [];
    for i := 0 to |tasks|
      invariant runnable == Entries(tasks, scans, order, i, RunnableEntry)
      invariant active == Entries(tasks, scans, order, i, ActiveEntry)
      invariant blocked == Entries(tasks, scans, order, i, BlockedEntry)
    {
      var task, scan := tasks[i], scans[i];
      ghost var lane := RowLane(tasks, scans, order, i);
      if scan.degrade.Some? {
        blocked := blocked + [Blocked(task.id, task.workstream, Transport(scan.degrade.value))];
        continue;
      }
      if FullyComplete(scan, order) {
        continue;
      }
      var next := FirstIncomplete(scan, order);
      if next.None? {
        continue;
      }
      if scan.status == Some(InProgress) {
        active := active + [Target(task.id, task.workstream, next.value)];
        continue;
      }
      var ok, missing := DepsSatisfied(task.dependsOn, complete, known);
      if !ok {
        blocked := blocked + [Blocked(task.id, task.workstream, Dependency(missing))];
        continue;
      }
      runnable := runnable + [Target(task.id, task.workstream, next.value)];
    }
    var threads := ComputeThreads(tasks);
    return Some(LaneState(SortBy(runnable, TargetKey), SortBy(active, TargetKey), SortBy(blocked, BlockedKey),
                          threads));
  }

  lemma MissingEmpty(dependsOn: seq<string>, complete: set<string>, known: set<string>)
    ensures Missing(dependsOn, complete, known) == [] <==>
            forall i :: 0 <= i < |dependsOn| ==> dependsOn[i] in known && dependsOn[i] in complete
  {
    var absent := (d: string) => d !in known || d !in complete;
    var f := Filter(dependsOn, absent);
    if f == [] {
      forall i | 0 <= i < |dependsOn| ensures dependsOn[i] in known && dependsOn[i] in complete {
        FilterMember(dependsOn, absent, dependsOn[i]);
      }
    } else {
      FilterMember(dependsOn, absent, f[0]);
    }
  }

  /** The grouping loop: `group_map.setdefault(pg, []).append(...)`, then the sorted groups. */
  method ComputeThreads(tasks: seq<Task>) returns (threads: seq<Thread>)
    ensures threads == Threads(tasks)
  {
    var groups: seq<string> := [];
    for i := 0 to |tasks|
      invariant groups == Distinct(Map(tasks[..i], GroupOf))
    {
      assert tasks[..i + 1] == tasks[..i] + [tasks[i]];
      MapSnoc(tasks[..i], tasks[i], GroupOf);
      assert (Map(tasks[..i], GroupOf) + [tasks[i].group])[..i] == Map(tasks[..i], GroupOf);
      if tasks[i].group !in groups {
        groups := groups + [tasks[i].group];
      }
    }
    assert tasks[..|tasks|] == tasks;
    threads := Map(SortBy(groups, GroupKey), ThreadOf(tasks));
  }
}
