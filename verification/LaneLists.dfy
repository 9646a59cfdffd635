/** What each lane list of a snapshot holds, said by the scans and dependencies of the rows
    (src/canon_systems/task_thread_scheduler.py). */
module LaneLists {
  import opened Text
  import opened Sorting
  import opened Delimited
  import opened LaneScheduler
  import opened LaneSnapshot

  // ---- One row ----------------------------------------------------------------------------

  /** The row answered that its last phase is completed. */
  predicate AtTop(scan: Scan, order: seq<string>)
    requires order != []
  {
    scan.degrade.None? && scan.phase == Some(order[|order| - 1]) && scan.status == Some(Completed)
  }

  /** The phase of the row is the one at `k`, its first place in the order. */
  predicate StandsAt(scan: Scan, order: seq<string>, k: nat)
    requires k < |order|
  {
    scan.phase == Some(order[k]) && order[k] !in order[..k]
  }

  /** `p` is the phase to work on: the first one when the row stands nowhere in the order, the one after a completed
      phase, the phase itself otherwise. */
  ghost predicate ToDo(scan: Scan, order: seq<string>, p: string)
    requires order != []
  {
    && ((scan.phase.None? || scan.phase.value !in order) ==> p == order[0])
    && (forall k :: 0 <= k < |order| && StandsAt(scan, order, k) ==> Follows(scan, order, k, p))
  }

  predicate Follows(scan: Scan, order: seq<string>, k: nat, p: string)
    requires k < |order|
  {
    if scan.status == Some(Completed) then k + 1 < |order| && p == order[k + 1] else p == order[k]
  }

  /** No row with that id is at the top. */
  ghost predicate Unmet(tasks: seq<Task>, scans: seq<Scan>, order: seq<string>, d: string)
    requires order != [] && |tasks| == |scans|
  {
    !exists j :: 0 <= j < |tasks| && tasks[j].id == d && AtTop(scans[j], order)
  }

  ghost predicate HasUnmet(tasks: seq<Task>, scans: seq<Scan>, order: seq<string>, i: nat)
    requires order != [] && |tasks| == |scans| && i < |tasks|
  {
    exists d :: d in tasks[i].dependsOn && Unmet(tasks, scans, order, d)
  }

  /** The unmet dependencies of a row, each as often as the row names it, ascending. */
  ghost predicate NamesUnmet(tasks: seq<Task>, scans: seq<Scan>, order: seq<string>, i: nat, missing: seq<string>)
    requires order != [] && |tasks| == |scans| && i < |tasks|
  {
    && (forall d :: multiset(missing)[d] ==
          if Unmet(tasks, scans, order, d) then multiset(tasks[i].dependsOn)[d] else 0)
    && forall j, k :: 0 <= j < k < |missing| ==> Le(missing[j], missing[k])
  }

  predicate IsTransport(scan: Scan) {
    scan.degrade.Some?
  }

  /** In progress is active, whatever the dependencies. */
  predicate IsActive(scan: Scan, order: seq<string>)
    requires order != []
  {
    scan.degrade.None? && !AtTop(scan, order) && scan.status == Some(InProgress)
  }

  predicate IsWaiting(scan: Scan, order: seq<string>)
    requires order != []
  {
    scan.degrade.None? && !AtTop(scan, order) && scan.status != Some(InProgress)
  }

  lemma CompleteIdsRead(tasks: seq<Task>, scans: seq<Scan>, order: seq<string>, d: string)
    requires order != [] && |tasks| == |scans|
    ensures d !in KnownIds(tasks) || d !in CompleteIds(tasks, scans, order) <==> Unmet(tasks, scans, order, d)
  {
    if d in CompleteIds(tasks, scans, order) {
      var j :| 0 <= j < |tasks| && Done(scans[j], order) && tasks[j].id == d;
      assert AtTop(scans[j], order) && d in KnownIds(tasks);
    }
    if j :| 0 <= j < |tasks| && tasks[j].id == d && AtTop(scans[j], order) {
      assert Done(scans[j], order) && d in CompleteIds(tasks, scans, order);
    }
  }

  lemma MissingReads(tasks: seq<Task>, scans: seq<Scan>, order: seq<string>, i: nat)
    requires order != [] && |tasks| == |scans| && i < |tasks|
    ensures var missing := Missing(tasks[i].dependsOn, CompleteIds(tasks, scans, order), KnownIds(tasks));
            NamesUnmet(tasks, scans, order, i, missing) && (missing != [] <==> HasUnmet(tasks, scans, order, i))
  {
    var complete, known := CompleteIds(tasks, scans, order), KnownIds(tasks);
    var absent := (d: string) => d !in known || d !in complete;
    var found := Filter(tasks[i].dependsOn, absent);
    var byName := (d: string) => [Codes(d)];
    var missing := SortBy(found, byName);
    assert missing == Missing(tasks[i].dependsOn, complete, known);
    SortLaws(found, byName);
    forall d
      ensures multiset(missing)[d] == if Unmet(tasks, scans, order, d) then multiset(tasks[i].dependsOn)[d] else 0
    {
      CompleteIdsRead(tasks, scans, order, d);
      FilterCounts(tasks[i].dependsOn, absent, d);
    }
    forall j, k | 0 <= j < k < |missing| ensures Le(missing[j], missing[k]) {
      NameOrder(missing[j], missing[k]);
    }
    if missing != [] {
      assert multiset(missing)[missing[0]] > 0;
      assert missing[0] in tasks[i].dependsOn && Unmet(tasks, scans, order, missing[0]);
    }
    if d :| d in tasks[i].dependsOn && Unmet(tasks, scans, order, d) {
      assert multiset(missing)[d] > 0;
    }
  }

  lemma NameOrder(a: string, b: string)
    requires KeyLe([Codes(a)], [Codes(b)])
    ensures Le(a, b)
  {
    assert [Codes(a)][1..] == [] && [Codes(b)][1..] == [];
    LeTotal(a, b);
    if Codes(a) == Codes(b) {
      CodesInjective(a, b);
    }
  }

  lemma NextReads(scan: Scan, order: seq<string>)
    requires order != [] && FirstIncomplete(scan, order).Some?
    ensures ToDo(scan, order, FirstIncomplete(scan, order).value)
    ensures forall p :: ToDo(scan, order, p) ==> p == FirstIncomplete(scan, order).value
  {
    if scan.phase.Some? && scan.phase.value in order {
      var k := IndexOf(order, scan.phase.value);
      assert StandsAt(scan, order, k);
      forall j | 0 <= j < |order| && StandsAt(scan, order, j) ensures j == k {
        FirstOnly(order, j, k);
      }
      NextAt(scan, order, k);
    } else {
      forall j | 0 <= j < |order| ensures !StandsAt(scan, order, j) {
        assert order[j] in order;
      }
    }
  }

  lemma NextAt(scan: Scan, order: seq<string>, k: nat)
    requires k < |order| && StandsAt(scan, order, k) && FirstIncomplete(scan, order).Some?
    requires scan.phase.Some? && scan.phase.value in order && IndexOf(order, scan.phase.value) == k
    requires forall j :: 0 <= j < |order| && StandsAt(scan, order, j) ==> j == k
    ensures forall p :: ToDo(scan, order, p) <==> p == FirstIncomplete(scan, order).value
  {
    var next := FirstIncomplete(scan, order).value;
    assert Follows(scan, order, k, next);
    assert forall p :: Follows(scan, order, k, p) ==> p == next;
  }

  lemma FirstOnly(order: seq<string>, j: nat, k: nat)
    requires j < |order| && k < |order| && order[j] == order[k]
    requires forall i :: 0 <= i < k ==> order[i] != order[k]
    ensures order[j] !in order[..j] ==> j == k
  {
    if k < j {
      assert order[..j][k] == order[j];
    }
  }

  /** A row without a next phase has nothing to do. */
  lemma NothingToDo(scan: Scan, order: seq<string>)
    requires order != [] && FirstIncomplete(scan, order).None?
    ensures forall p :: !ToDo(scan, order, p)
  {
    var k := IndexOf(order, scan.phase.value);
    assert order[k] !in order[..k];
    assert StandsAt(scan, order, k) && forall p :: !Follows(scan, order, k, p);
  }

  /** The lane of a row, by its own scan and the scans of its dependencies. */
  lemma RowReads(tasks: seq<Task>, scans: seq<Scan>, order: seq<string>, i: nat)
    requires order != [] && |tasks| == |scans| && i < |tasks|
    ensures var lane, scan := RowLane(tasks, scans, order, i), scans[i];
            && (lane.TransportLane? <==> IsTransport(scan))
            && (lane.TransportLane? ==> scan.degrade == Some(lane.detail))
            && (lane.CompleteLane? <==> AtTop(scan, order))
            && (lane.ActiveLane? <==> IsActive(scan, order))
            && (lane.DependencyLane? <==> IsWaiting(scan, order) && HasUnmet(tasks, scans, order, i))
            && (lane.DependencyLane? ==> NamesUnmet(tasks, scans, order, i, lane.missing))
            && (lane.RunnableLane? <==> IsWaiting(scan, order) && !HasUnmet(tasks, scans, order, i))
            && (lane.ActiveLane? || lane.RunnableLane? ==>
                 ToDo(scan, order, lane.phase) && forall p :: ToDo(scan, order, p) ==> p == lane.phase)
  {
    NeverSkipped(tasks, scans, order, i);
    MissingReads(tasks, scans, order, i);
    if FirstIncomplete(scans[i], order).Some? {
      NextReads(scans[i], order);
    }
  }

  // ---- The lists --------------------------------------------------------------------------

  /** `t` is row `i` with the phase it has to work on. */
  ghost predicate TargetOf(tasks: seq<Task>, scans: seq<Scan>, order: seq<string>, i: nat, t: Target)
    requires order != [] && |tasks| == |scans| && i < |tasks|
  {
    t.id == tasks[i].id && t.workstream == tasks[i].workstream && ToDo(scans[i], order, t.phase)
  }

  /** `b` is row `i` with why it is blocked. */
  ghost predicate BlockOf(tasks: seq<Task>, scans: seq<Scan>, order: seq<string>, i: nat, b: Blocked)
    requires order != [] && |tasks| == |scans| && i < |tasks|
  {
    && b.id == tasks[i].id && b.workstream == tasks[i].workstream
    && match b.reason
       case Transport(detail) => scans[i].degrade == Some(detail)
       case Dependency(missing) =>
         IsWaiting(scans[i], order) && HasUnmet(tasks, scans, order, i) && NamesUnmet(tasks, scans, order, i, missing)
  }

  /** By task id, then workstream, then phase. */
  predicate TargetBefore(t: Target, u: Target) {
    if t.id != u.id then Le(t.id, u.id)
    else if t.workstream != u.workstream then Le(t.workstream, u.workstream)
    else Le(t.phase, u.phase)
  }

  lemma TargetOrder(t: Target, u: Target)
    requires KeyLe(TargetKey(t), TargetKey(u))
    ensures TargetBefore(t, u)
  {
    var x, y := TargetKey(t), TargetKey(u);
    assert x[1..][1..] == [Codes(t.phase)] && y[1..][1..] == [Codes(u.phase)];
    assert x[1..][0] == Codes(t.workstream) && y[1..][0] == Codes(u.workstream);
    LeTotal(t.phase, t.phase);
    SameCodes(t.id, u.id);
    SameCodes(t.workstream, u.workstream);
    SameCodes(t.phase, u.phase);
    if t.id == u.id && t.workstream == u.workstream {
      NameOrder(t.phase, u.phase);
    }
  }

  lemma SameCodes(a: string, b: string)
    ensures Codes(a) == Codes(b) <==> a == b
  {
    if Codes(a) == Codes(b) {
      CodesInjective(a, b);
    }
  }

  /** The detail shown: what a degraded scan says, or the missing ids with commas between them. */
  function DetailOf(b: Blocked): string {
    match b.reason
    case Transport(detail) => detail
    case Dependency(missing) => Join(missing, ',')
  }

  /** By task id, then workstream, then dependencies before transport, then detail. */
  predicate BlockedBefore(b: Blocked, c: Blocked) {
    if b.id != c.id then Le(b.id, c.id)
    else if b.workstream != c.workstream then Le(b.workstream, c.workstream)
    else if b.reason.Dependency? != c.reason.Dependency? then b.reason.Dependency?
    else Le(DetailOf(b), DetailOf(c))
  }

  lemma {:induction false} JoinedReads(parts: seq<string>)
    ensures Joined(parts) == Join(parts, ',')
  {
    if |parts| > 1 {
      JoinedReads(parts[1..]);
    }
  }

  lemma KeyCons(a: seq<int>, s: Key, b: seq<int>, t: Key)
    ensures KeyLe([a] + s, [b] + t) <==> if a == b then KeyLe(s, t) else LexLe(a, b)
  {
    assert ([a] + s)[1..] == s && ([b] + t)[1..] == t;
  }

  lemma LastPart(a: seq<int>, b: seq<int>)
    ensures KeyLe([a], [b]) <==> LexLe(a, b)
  {
    KeyCons(a, [], b, []);
    assert [a] + [] == [a] && [b] + [] == [b];
    LexTotal(a, b);
  }

  lemma FourParts(a: seq<int>, b: seq<int>, c: seq<int>, d: seq<int>,
                  e: seq<int>, f: seq<int>, g: seq<int>, h: seq<int>)
    ensures KeyLe([a, b, c, d], [e, f, g, h]) <==>
            if a != e then LexLe(a, e) else if b != f then LexLe(b, f) else if c != g then LexLe(c, g) else LexLe(d, h)
  {
    assert [a, b, c, d] == [a] + ([b] + ([c] + [d])) && [e, f, g, h] == [e] + ([f] + ([g] + [h]));
    KeyCons(a, [b] + ([c] + [d]), e, [f] + ([g] + [h]));
    KeyCons(b, [c] + [d], f, [g] + [h]);
    KeyCons(c, [d], g, [h]);
    LastPart(d, h);
  }

  /** The word a reason has in the order. */
  function Word(b: Blocked): string {
    if b.reason.Dependency? then "dependency" else "transport"
  }

  lemma WordsInOrder()
    ensures Codes("dependency") != Codes("transport") && !LexLe(Codes("transport"), Codes("dependency"))
  {
    assert Codes("dependency")[0] == 'd' as int && Codes("transport")[0] == 't' as int;
  }

  lemma BlockedKeyReads(b: Blocked)
    ensures BlockedKey(b) == [Codes(b.id), Codes(b.workstream), Codes(Word(b)), Codes(DetailOf(b))]
  {
    if b.reason.Dependency? {
      JoinedReads(b.reason.missing);
    }
  }

  lemma BlockedOrder(b: Blocked, c: Blocked)
    requires KeyLe(BlockedKey(b), BlockedKey(c))
    ensures BlockedBefore(b, c)
  {
    BlockedKeyReads(b);
    BlockedKeyReads(c);
    FourParts(Codes(b.id), Codes(b.workstream), Codes(Word(b)), Codes(DetailOf(b)),
              Codes(c.id), Codes(c.workstream), Codes(Word(c)), Codes(DetailOf(c)));
    SameCodes(b.id, c.id);
    SameCodes(b.workstream, c.workstream);
    WordsInOrder();
  }

  lemma ActiveRead(tasks: seq<Task>, scans: seq<Scan>, order: seq<string>, t: Target)
    requires order != [] && |tasks| == |scans|
    ensures t in LaneStateOf(tasks, scans, order).active <==>
            exists i: nat :: i < |tasks| && IsActive(scans[i], order) && TargetOf(tasks, scans, order, i, t)
  {
    SnapshotPartition(tasks, scans, order);
    forall i: nat | i < |tasks|
      ensures ActiveEntry(tasks[i], RowLane(tasks, scans, order, i)) == Some(t) <==>
              IsActive(scans[i], order) && TargetOf(tasks, scans, order, i, t)
    {
      RowReads(tasks, scans, order, i);
    }
  }

  lemma RunnableRead(tasks: seq<Task>, scans: seq<Scan>, order: seq<string>, t: Target)
    requires order != [] && |tasks| == |scans|
    ensures t in LaneStateOf(tasks, scans, order).runnable <==>
            exists i: nat :: i < |tasks| && IsWaiting(scans[i], order) && !HasUnmet(tasks, scans, order, i) &&
                             TargetOf(tasks, scans, order, i, t)
  {
    SnapshotPartition(tasks, scans, order);
    forall i: nat | i < |tasks|
      ensures RunnableEntry(tasks[i], RowLane(tasks, scans, order, i)) == Some(t) <==>
              IsWaiting(scans[i], order) && !HasUnmet(tasks, scans, order, i) && TargetOf(tasks, scans, order, i, t)
    {
      RowReads(tasks, scans, order, i);
    }
  }

  lemma BlockedRead(tasks: seq<Task>, scans: seq<Scan>, order: seq<string>, b: Blocked)
    requires order != [] && |tasks| == |scans|
    ensures b in LaneStateOf(tasks, scans, order).blocked <==>
            exists i: nat :: i < |tasks| && BlockOf(tasks, scans, order, i, b)
  {
    SnapshotPartition(tasks, scans, order);
    forall i: nat | i < |tasks|
      ensures BlockedEntry(tasks[i], RowLane(tasks, scans, order, i)) == Some(b) <==>
              BlockOf(tasks, scans, order, i, b)
    {
      RowReads(tasks, scans, order, i);
      if BlockOf(tasks, scans, order, i, b) && b.reason.Dependency? {
        OneMissing(tasks, scans, order, i, b.reason.missing, RowLane(tasks, scans, order, i).missing);
      }
    }
  }

  lemma OneMissing(tasks: seq<Task>, scans: seq<Scan>, order: seq<string>, i: nat, a: seq<string>, b: seq<string>)
    requires order != [] && |tasks| == |scans| && i < |tasks|
    requires NamesUnmet(tasks, scans, order, i, a) && NamesUnmet(tasks, scans, order, i, b)
    ensures a == b
  {
    var byName := (d: string) => [Codes(d)];
    assert multiset(a) == multiset(b);
    Ascending(a, byName);
    Ascending(b, byName);
    forall x, y | x in a && y in a && byName(x) == byName(y) ensures x == y {
      assert Codes(x) == byName(x)[0] == byName(y)[0] == Codes(y);
      CodesInjective(x, y);
    }
    SortedUnique(a, b, byName);
  }

  lemma Ascending(a: seq<string>, byName: string -> Key)
    requires forall j, k :: 0 <= j < k < |a| ==> Le(a[j], a[k])
    requires forall d :: byName(d) == [Codes(d)]
    ensures Sorted(a, byName)
  {
    forall j, k | 0 <= j < k < |a| ensures KeyLe(byName(a[j]), byName(a[k])) {
      assert [Codes(a[j])][1..] == [] && [Codes(a[k])][1..] == [];
    }
  }

  /** The lists are in order, and account for every row beside those at the top. */
  lemma ListsInOrder(tasks: seq<Task>, scans: seq<Scan>, order: seq<string>)
    requires order != [] && |tasks| == |scans|
    ensures var s := LaneStateOf(tasks, scans, order);
            && (forall j, k :: 0 <= j < k < |s.active| ==> TargetBefore(s.active[j], s.active[k]))
            && (forall j, k :: 0 <= j < k < |s.runnable| ==> TargetBefore(s.runnable[j], s.runnable[k]))
            && (forall j, k :: 0 <= j < k < |s.blocked| ==> BlockedBefore(s.blocked[j], s.blocked[k]))
            && |s.active| + |s.runnable| + |s.blocked| + TopRows(scans, order, |scans|) == |tasks|
  {
    var s := LaneStateOf(tasks, scans, order);
    SnapshotPartition(tasks, scans, order);
    TopRowsCounted(tasks, scans, order, |tasks|);
    forall j, k | 0 <= j < k < |s.active| ensures TargetBefore(s.active[j], s.active[k]) {
      TargetOrder(s.active[j], s.active[k]);
    }
    forall j, k | 0 <= j < k < |s.runnable| ensures TargetBefore(s.runnable[j], s.runnable[k]) {
      TargetOrder(s.runnable[j], s.runnable[k]);
    }
    forall j, k | 0 <= j < k < |s.blocked| ensures BlockedBefore(s.blocked[j], s.blocked[k]) {
      BlockedOrder(s.blocked[j], s.blocked[k]);
    }
  }

  /** How many of the first `n` rows are at the top. */
  function TopRows(scans: seq<Scan>, order: seq<string>, n: nat): nat
    requires order != [] && n <= |scans|
  {
    if n == 0 then 0 else TopRows(scans, order, n - 1) + if AtTop(scans[n - 1], order) then 1 else 0
  }

  lemma {:induction false} TopRowsCounted(tasks: seq<Task>, scans: seq<Scan>, order: seq<string>, n: nat)
    requires order != [] && |tasks| == |scans| && n <= |tasks|
    ensures |Entries(tasks, scans, order, n, CompleteEntry)| == TopRows(scans, order, n)
  {
    if n > 0 {
      TopRowsCounted(tasks, scans, order, n - 1);
      RowReads(tasks, scans, order, n - 1);
    }
  }
}
