/** Listing order and selection of tasks (src/canon_systems/tasks.py): `canon task list` and `canon task next`. */
module TaskOrder {
  import opened Text
  import opened Sorting
  import opened TaskEvents

  const MAX_CODE := 0x10FFFF

  /** `_invert` on code points. */
  function Invert(s: seq<int>): (r: seq<int>)
    ensures |r| == |s|
  {
    if s == [] then [] else [if s[0] < MAX_CODE then MAX_CODE - s[0] else s[0]] + Invert(s[1..])
  }

  predicate BelowMax(s: seq<int>) {
    forall i :: 0 <= i < |s| ==> s[i] < MAX_CODE
  }

  /** The complement reverses the order exactly where two strings differ before either ends; a string still
      sorts before its own extensions. */
  lemma {:induction false} InvertOrder(a: seq<int>, b: seq<int>)
    requires BelowMax(a) && BelowMax(b)
    ensures LexLe(Invert(a), Invert(b)) <==> if a <= b || b <= a then a <= b else LexLe(b, a)
  {
    if a != [] && b != [] {
      assert Invert(a)[1..] == Invert(a[1..]) && Invert(b)[1..] == Invert(b[1..]);
      assert a == [a[0]] + a[1..] && b == [b[0]] + b[1..];
      if a[0] == b[0] {
        InvertOrder(a[1..], b[1..]);
        assert a <= b <==> a[1..] <= b[1..];
        assert b <= a <==> b[1..] <= a[1..];
      }
    }
  }

  /** Newest first, except that a stamp comes before its own extensions. */
  predicate NewerFirst(a: string, b: string) {
    if a <= b || b <= a then a <= b else Le(b, a)
  }

  predicate PlainStamp(s: string) {
    BelowMax(Codes(s))
  }

  lemma CodesPrefix(a: string, b: string)
    ensures Codes(a) <= Codes(b) <==> a <= b
  {
    if Codes(a) <= Codes(b) {
      forall i | 0 <= i < |a| ensures a[i] == b[i] {
        assert Codes(a)[i] == Codes(b)[i];
      }
    }
  }

  /** Complemented stamps ascend exactly in that order, and tell stamps apart. */
  lemma StampOrder(a: string, b: string)
    requires PlainStamp(a) && PlainStamp(b)
    ensures LexLe(Invert(Codes(a)), Invert(Codes(b))) <==> NewerFirst(a, b)
    ensures Invert(Codes(a)) == Invert(Codes(b)) <==> a == b
  {
    var u, v := Codes(a), Codes(b);
    CodesPrefix(a, b);
    CodesPrefix(b, a);
    InvertOrder(u, v);
    InvertOrder(v, u);
    LexTotal(Invert(u), Invert(v));
    LeTotal(a, b);
  }

  /** So stamps of equal length sort newest first. */
  lemma NewestFirst(a: string, b: string)
    requires |a| == |b|
    ensures NewerFirst(a, b) <==> Le(b, a)
  {
    LeTotal(a, a);
    assert a <= b || b <= a ==> a == b;
  }

  predicate IsTerminal(status: Value) {
    status == Scalar("done") || status == Scalar("cancelled")
  }

  /** `_PRIORITY_RANK.get(priority, 2)`. */
  function PriorityRank(priority: Value): nat {
    if priority == Scalar("urgent") then 0
    else if priority == Scalar("high") then 1
    else if priority == Scalar("low") then 3
    else 2
  }

  /** What `sort_tasks` compares. */
  datatype Rank = Rank(terminal: bool, priority: nat, updatedAt: string, ref: string)

  function RankOf(t: Task): Rank {
    Rank(IsTerminal(FieldOf(t, Status)), PriorityRank(FieldOf(t, Priority)), t.updatedAt, t.taskRef)
  }

  function RankKey(r: Rank): Key {
    [[if r.terminal then 1 else 0], [r.priority], Invert(Codes(r.updatedAt)), Codes(r.ref)]
  }

  function TaskKey(t: Task): Key {
    RankKey(RankOf(t))
  }

  /** `sort_tasks`. */
  function SortedTasks(tasks: seq<Task>): seq<Task> {
    SortBy(tasks, TaskKey)
  }

  /** Work order: open before terminal, then urgent first, then newest first, then by ref. */
  predicate Before(a: Rank, b: Rank) {
    if a.terminal != b.terminal then b.terminal
    else if a.priority != b.priority then a.priority < b.priority
    else if a.updatedAt != b.updatedAt then NewerFirst(a.updatedAt, b.updatedAt)
    else Le(a.ref, b.ref)
  }

  lemma FourPartKey(x: Key, y: Key)
    requires |x| == |y| == 4
    ensures KeyLe(x, y) <==>
            if x[0] != y[0] then LexLe(x[0], y[0])
            else if x[1] != y[1] then LexLe(x[1], y[1])
            else if x[2] != y[2] then LexLe(x[2], y[2])
            else x[3] == y[3] || LexLe(x[3], y[3])
  {
    var x1, y1 := x[1..], y[1..];
    var x2, y2 := x1[1..], y1[1..];
    var x3, y3 := x2[1..], y2[1..];
    assert x3[1..] == [] && y3[1..] == [];
    assert KeyLe(x3, y3) <==> x[3] == y[3] || LexLe(x[3], y[3]);
    assert KeyLe(x2, y2) <==> if x[2] == y[2] then KeyLe(x3, y3) else LexLe(x[2], y[2]);
    assert KeyLe(x1, y1) <==> if x[1] == y[1] then KeyLe(x2, y2) else LexLe(x[1], y[1]);
  }

  lemma RankKeyOrder(a: Rank, b: Rank)
    requires PlainStamp(a.updatedAt) && PlainStamp(b.updatedAt)
    ensures KeyLe(RankKey(a), RankKey(b)) <==> Before(a, b)
  {
    FourPartKey(RankKey(a), RankKey(b));
    StampOrder(a.updatedAt, b.updatedAt);
    LeTotal(a.ref, b.ref);
    LeTotal(a.ref, a.ref);
  }

  ghost predicate PlainStamps(tasks: seq<Task>) {
    forall t :: t in tasks ==> PlainStamp(t.updatedAt)
  }

  /** The listing is a permutation of the tasks, in work order unless a stamp holds the greatest code point. */
  lemma SortedTasksInOrder(tasks: seq<Task>)
    ensures multiset(SortedTasks(tasks)) == multiset(tasks)
    ensures PlainStamps(tasks) ==>
      var s := SortedTasks(tasks); forall i, j :: 0 <= i < j < |s| ==> Before(RankOf(s[i]), RankOf(s[j]))
  {
    var s := SortedTasks(tasks);
    SortLaws(tasks, TaskKey);
    SortMembers(tasks, TaskKey);
    if PlainStamps(tasks) {
      forall i, j | 0 <= i < j < |s| ensures Before(RankOf(s[i]), RankOf(s[j])) {
        assert s[i] in s && s[j] in s;
        RankKeyOrder(RankOf(s[i]), RankOf(s[j]));
      }
    }
  }

  // ---- Selection ---------------------------------------------------------------

  /** The filters of `task_matches`; a blank or absent filter is None, except `includeTerminal`. */
  datatype Filters = Filters(
    status: Option<string>, assignee: Option<string>, mine: Option<string>, scope: Option<string>,
    repositoryId: Option<string>, companyId: Option<string>, tag: Option<string>, includeTerminal: bool)

  predicate Holds(v: Value, item: string) {
    v.Items? && item in v.items
  }

  predicate TouchesRepo(t: Task, repo: string) {
    match t.scope
    case Repo => t.repositoryId == repo
    case MultiRepo => Holds(FieldOf(t, Repositories), repo)
    case Company => true
  }

  /** `task_matches`; None is the TaskError of a filter that does not normalise, raised only when reached. */
  function Matches(t: Task, f: Filters): Option<bool> {
    if f.status.Some? && NormalizeStatus(f.status.value).None? then None
    else if f.status.Some? && FieldOf(t, Status) != Scalar(NormalizeStatus(f.status.value).value) then Some(false)
    else if f.status.None? && !f.includeTerminal && IsTerminal(FieldOf(t, Status)) then Some(false)
    else if f.scope.Some? && NormalizeScope(f.scope.value).None? then None
    else if f.scope.Some? && t.scope != NormalizeScope(f.scope.value).value then Some(false)
    else Some(
      && (f.companyId.Some? ==> t.companyId == f.companyId.value)
      && (f.repositoryId.Some? ==> TouchesRepo(t, f.repositoryId.value))
      && (f.assignee.Some? ==> Holds(FieldOf(t, Assignees), f.assignee.value))
      && (f.mine.Some? ==> Holds(FieldOf(t, Assignees), f.mine.value) || t.authorId == f.mine.value)
      && (f.tag.Some? ==> Holds(FieldOf(t, Labels), f.tag.value)))
  }

  function Passes(f: Filters): Task -> bool {
    (t: Task) => Matches(t, f) == Some(true)
  }

  function Raises(f: Filters): Task -> bool {
    (t: Task) => Matches(t, f).None?
  }

  /** `filter_and_sort`; None when some task makes a filter raise. */
  function Selected(tasks: seq<Task>, f: Filters): Option<seq<Task>> {
    if Filter(tasks, Raises(f)) != [] then None else Some(SortedTasks(Filter(tasks, Passes(f))))
  }

  method FilterAndSort(tasks: seq<Task>, f: Filters) returns (r: Option<seq<Task>>)
    ensures r == Selected(tasks, f)
  {
    var selected: seq<Task> := [];
    for i := 0 to |tasks|
      invariant selected == Filter(tasks[..i], Passes(f)) && Filter(tasks[..i], Raises(f)) == []
    {
      ghost var more := FilterSplit(tasks, i, Passes(f));
      ghost var raising := FilterSplit(tasks, i, Raises(f));
      var m := Matches(tasks[i], f);
      if m.None? {
        assert Raises(f)(tasks[i]);
        return None;
      }
      if m.value {
        selected := selected + [tasks[i]];
      }
    }
    assert tasks[..|tasks|] == tasks;
    return Some(SortedTasks(selected));
  }

  ghost predicate UniqueRefs(tasks: seq<Task>) {
    forall t, u :: t in tasks && u in tasks && t.taskRef == u.taskRef ==> t == u
  }

  lemma TaskKeyTellsApart(t: Task, u: Task)
    requires TaskKey(t) == TaskKey(u)
    ensures t.taskRef == u.taskRef
  {
    assert Codes(t.taskRef) == TaskKey(t)[3] == TaskKey(u)[3] == Codes(u.taskRef);
    CodesInjective(t.taskRef, u.taskRef);
  }

  /** What is listed, and so what `canon task next` picks, does not depend on the order tasks come in. */
  lemma SelectionIgnoresOrder(tasks: seq<Task>, shuffled: seq<Task>, f: Filters)
    requires multiset(tasks) == multiset(shuffled) && UniqueRefs(tasks)
    ensures Selected(tasks, f) == Selected(shuffled, f)
  {
    var a, b := Filter(tasks, Passes(f)), Filter(shuffled, Passes(f));
    FilterPermuted(tasks, shuffled, Passes(f));
    FilterPermuted(tasks, shuffled, Raises(f));
    SameMembers(Filter(tasks, Raises(f)), Filter(shuffled, Raises(f)));
    forall x, y | x in a && y in a && TaskKey(x) == TaskKey(y) ensures x == y {
      FilterMember(tasks, Passes(f), x);
      FilterMember(tasks, Passes(f), y);
      TaskKeyTellsApart(x, y);
    }
    SortCanonical(a, b, TaskKey);
  }

  /** The task `canon task next` picks matches, and comes before every other match. */
  lemma NextIsLeast(tasks: seq<Task>, f: Filters)
    requires Selected(tasks, f).Some? && Selected(tasks, f).value != []
    ensures var top := Selected(tasks, f).value[0];
            && top in tasks && Matches(top, f) == Some(true)
            && (PlainStamps(tasks) ==>
                 forall t :: t in tasks && Matches(t, f) == Some(true) ==> t == top || Before(RankOf(top), RankOf(t)))
  {
    var a := Filter(tasks, Passes(f));
    var s := SortedTasks(a);
    FilterMembers(tasks, Passes(f));
    SortedTasksInOrder(a);
    SortMembers(a, TaskKey);
    assert s[0] in s;
    if PlainStamps(tasks) {
      forall t | t in tasks && Matches(t, f) == Some(true) ensures t == s[0] || Before(RankOf(s[0]), RankOf(t)) {
        assert Passes(f)(t);
        var i :| 0 <= i < |s| && s[i] == t;
      }
    }
  }

  /** Nothing is picked exactly when nothing matches. */
  lemma NextIffMatch(tasks: seq<Task>, f: Filters)
    requires Selected(tasks, f).Some?
    ensures Selected(tasks, f).value != [] <==> exists t :: t in tasks && Matches(t, f) == Some(true)
  {
    var a := Filter(tasks, Passes(f));
    FilterMembers(tasks, Passes(f));
    SortMembers(a, TaskKey);
    if a != [] {
      assert a[0] in a && Passes(f)(a[0]);
    }
    forall t | t in tasks && Matches(t, f) == Some(true) ensures t in a {
      assert Passes(f)(t);
    }
  }
}
