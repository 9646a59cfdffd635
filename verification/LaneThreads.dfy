/** What the task threads of a snapshot hold: every group once, in order, and every task once. */
module LaneThreads {
  import opened Text
  import opened Sorting
  import opened LaneScheduler

  // ---- Order and contents ---------------------------------------------------------

  /** The blank group first, the others by name, none twice. */
  predicate GroupBefore(a: string, b: string) {
    a != b && (a == "" || (b != "" && Le(a, b)))
  }

  /** By task id, then workstream. */
  predicate MemberBefore(m: (string, string), n: (string, string)) {
    if m.0 != n.0 then Le(m.0, n.0) else Le(m.1, n.1)
  }

  lemma GroupKeyOrder(a: string, b: string)
    requires a != b && KeyLe(GroupKey(a), GroupKey(b))
    ensures GroupBefore(a, b)
  {
    var x, y := GroupKey(a), GroupKey(b);
    assert x[1..] == [Codes(a)] && y[1..] == [Codes(b)];
    assert [Codes(a)][1..] == [] && [Codes(b)][1..] == [];
    LeTotal(a, a);
  }

  lemma MemberKeyOrder(m: (string, string), n: (string, string))
    requires KeyLe(MemberKey(m), MemberKey(n))
    ensures MemberBefore(m, n)
  {
    var x, y := MemberKey(m), MemberKey(n);
    assert x[1..] == [Codes(m.1)] && y[1..] == [Codes(n.1)];
    assert [Codes(m.1)][1..] == [] && [Codes(n.1)][1..] == [];
    LeTotal(m.1, m.1);
    if Codes(m.0) == Codes(n.0) {
      CodesInjective(m.0, n.0);
    }
    if Codes(m.1) == Codes(n.1) {
      CodesInjective(m.1, n.1);
    }
  }

  ghost predicate IsMember(tasks: seq<Task>, group: string, m: (string, string)) {
    exists i :: 0 <= i < |tasks| && tasks[i].group == group && m == (tasks[i].id, tasks[i].workstream)
  }

  /** A thread holds the members of its group and no others, in order. */
  ghost predicate HoldsGroup(tasks: seq<Task>, t: Thread) {
    && (forall m :: m in t.members <==> IsMember(tasks, t.group, m))
    && forall i, j :: 0 <= i < j < |t.members| ==> MemberBefore(t.members[i], t.members[j])
  }

  lemma GroupMembers(tasks: seq<Task>, group: string, m: (string, string))
    ensures m in Map(Filter(tasks, InGroup(group)), MemberOf) <==> IsMember(tasks, group, m)
  {
    var mine := Filter(tasks, InGroup(group));
    MapMember(mine, MemberOf, m);
    FilterMembers(tasks, InGroup(group));
    if IsMember(tasks, group, m) {
      var i :| 0 <= i < |tasks| && tasks[i].group == group && MemberOf(tasks[i]) == m;
      assert tasks[i] in mine;
    }
  }

  lemma MapMember<T, U>(s: seq<T>, f: T -> U, y: U)
    ensures y in Map(s, f) <==> exists x :: x in s && f(x) == y
  {
    if y in Map(s, f) {
      var i :| 0 <= i < |s| && Map(s, f)[i] == y;
      assert s[i] in s;
    }
    if x :| x in s && f(x) == y {
      var i :| 0 <= i < |s| && s[i] == x;
      assert Map(s, f)[i] == y;
    }
  }

  lemma MembersHoldGroup(tasks: seq<Task>, group: string)
    ensures HoldsGroup(tasks, Thread(group, MembersOf(tasks, group)))
    ensures multiset(MembersOf(tasks, group)) == multiset(Map(Filter(tasks, InGroup(group)), MemberOf))
  {
    var all := Map(Filter(tasks, InGroup(group)), MemberOf);
    SortLaws(all, MemberKey);
    SortMembers(all, MemberKey);
    var members := MembersOf(tasks, group);
    forall m ensures m in members <==> IsMember(tasks, group, m) {
      GroupMembers(tasks, group, m);
      assert m in members <==> m in all;
    }
    SortedMembers(MembersOf(tasks, group));
  }

  lemma SortedMembers(members: seq<(string, string)>)
    requires Sorted(members, MemberKey)
    ensures forall i, j :: 0 <= i < j < |members| ==> MemberBefore(members[i], members[j])
  {
    forall i, j | 0 <= i < j < |members| ensures MemberBefore(members[i], members[j]) {
      MemberKeyOrder(members[i], members[j]);
    }
  }

  ghost predicate Occurs(tasks: seq<Task>, group: string) {
    exists t :: t in tasks && t.group == group
  }

  /** The groups in thread order. */
  function GroupsOf(tasks: seq<Task>): seq<string> {
    SortBy(Distinct(Map(tasks, GroupOf)), GroupKey)
  }

  lemma GroupsLaws(tasks: seq<Task>)
    ensures NoDup(GroupsOf(tasks)) && Sorted(GroupsOf(tasks), GroupKey)
    ensures forall g :: g in GroupsOf(tasks) <==> Occurs(tasks, g)
  {
    var names := Map(tasks, GroupOf);
    SortLaws(Distinct(names), GroupKey);
    SortMembers(Distinct(names), GroupKey);
    PermutedNoDup(Distinct(names), GroupsOf(tasks));
    forall g ensures g in GroupsOf(tasks) <==> Occurs(tasks, g) {
      MapMember(tasks, GroupOf, g);
    }
  }

  lemma GroupsInOrder(groups: seq<string>)
    requires NoDup(groups) && Sorted(groups, GroupKey)
    ensures forall i, j :: 0 <= i < j < |groups| ==> GroupBefore(groups[i], groups[j])
  {
    forall i, j | 0 <= i < j < |groups| ensures GroupBefore(groups[i], groups[j]) {
      GroupKeyOrder(groups[i], groups[j]);
    }
  }

  /** The threads are the groups that occur, each once, in order, each holding its group's members. */
  lemma ThreadsHoldGroups(tasks: seq<Task>)
    ensures var ts := Threads(tasks);
            && (forall k :: 0 <= k < |ts| ==> Occurs(tasks, ts[k].group) && HoldsGroup(tasks, ts[k]))
            && (forall t :: t in tasks ==> exists k :: 0 <= k < |ts| && ts[k].group == t.group)
            && forall i, j :: 0 <= i < j < |ts| ==> GroupBefore(ts[i].group, ts[j].group)
  {
    var groups, ts := GroupsOf(tasks), Threads(tasks);
    GroupsLaws(tasks);
    GroupsInOrder(groups);
    forall k | 0 <= k < |ts| ensures Occurs(tasks, ts[k].group) && HoldsGroup(tasks, ts[k]) {
      MembersHoldGroup(tasks, groups[k]);
      assert groups[k] in groups;
    }
    forall t | t in tasks ensures exists k :: 0 <= k < |ts| && ts[k].group == t.group {
      assert Occurs(tasks, t.group);
      var k :| 0 <= k < |groups| && groups[k] == t.group;
      assert ts[k].group == t.group;
    }
  }

  // ---- No task is lost or listed twice ----------------------------------------------------

  function InAny(groups: seq<string>): Task -> bool {
    (t: Task) => t.group in groups
  }

  function MembersIn(tasks: seq<Task>): string -> seq<(string, string)> {
    (g: string) => MembersOf(tasks, g)
  }

  lemma {:induction false} FilterMapSplit<T, U>(s: seq<T>, p: T -> bool, q: T -> bool, either: T -> bool, f: T -> U)
    requires forall x :: x in s ==> !(p(x) && q(x)) && (either(x) <==> p(x) || q(x))
    ensures multiset(Map(Filter(s, either), f)) == multiset(Map(Filter(s, p), f)) + multiset(Map(Filter(s, q), f))
  {
    if s != [] {
      FilterMapSplit(s[1..], p, q, either, f);
      MapFront(s[0], Filter(s[1..], either), f);
      MapFront(s[0], Filter(s[1..], p), f);
      MapFront(s[0], Filter(s[1..], q), f);
    }
  }

  lemma MapFront<T, U>(x: T, s: seq<T>, f: T -> U)
    ensures multiset(Map([x] + s, f)) == multiset{f(x)} + multiset(Map(s, f))
  {
    assert Map([x] + s, f) == [f(x)] + Map(s, f);
  }

  lemma {:induction false} GroupsCoverTheirTasks(tasks: seq<Task>, groups: seq<string>)
    requires NoDup(groups)
    ensures multiset(FlatMap(groups, MembersIn(tasks))) == multiset(Map(Filter(tasks, InAny(groups)), MemberOf))
  {
    if groups == [] {
      FilterNone(tasks, InAny(groups));
    } else {
      var front, g := groups[..|groups| - 1], groups[|groups| - 1];
      assert groups == front + [g];
      GroupsCoverTheirTasks(tasks, front);
      FilterMapSplit(tasks, InAny(front), InGroup(g), InAny(groups), MemberOf);
      MembersHoldGroup(tasks, g);
    }
  }

  lemma {:induction false} FilterNone<T>(s: seq<T>, p: T -> bool)
    requires forall x :: x in s ==> !p(x)
    ensures Filter(s, p) == []
  {
    if s != [] {
      FilterNone(s[1..], p);
    }
  }

  lemma {:induction false} FilterAll<T>(s: seq<T>, p: T -> bool)
    requires forall x :: x in s ==> p(x)
    ensures Filter(s, p) == s
  {
    if s != [] {
      FilterAll(s[1..], p);
    }
  }

  lemma {:induction false} FlatMapOfMap<A, B, C>(s: seq<A>, f: A -> B, g: B -> seq<C>, h: A -> seq<C>)
    requires forall x :: x in s ==> h(x) == g(f(x))
    ensures FlatMap(Map(s, f), g) == FlatMap(s, h)
  {
    if s != [] {
      var front, x := s[..|s| - 1], s[|s| - 1];
      assert s == front + [x];
      MapSnoc(front, x, f);
      FlatMapSnoc(Map(front, f), f(x), g);
      FlatMapOfMap(front, f, g, h);
    }
  }

  /** Together the threads list every task once. */
  lemma ThreadsKeepEveryTask(tasks: seq<Task>)
    ensures multiset(FlatMap(Threads(tasks), (t: Thread) => t.members))
         == multiset(Map(tasks, (t: Task) => (t.id, t.workstream)))
  {
    assert Map(tasks, MemberOf) == Map(tasks, (t: Task) => (t.id, t.workstream));
    var groups := GroupsOf(tasks);
    GroupsLaws(tasks);
    GroupsCoverTheirTasks(tasks, groups);
    FilterAll(tasks, InAny(groups));
    FlatMapOfMap(groups, ThreadOf(tasks), (t: Thread) => t.members, MembersIn(tasks));
  }
}
