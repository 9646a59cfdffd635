/** What `canon task list` shows, filter by filter and in words of the task (src/canon_systems/tasks.py). */
module TaskListing {
  import opened Text
  import opened Sorting
  import opened TaskEvents
  import opened TaskMeaning
  import opened TaskForms
  import opened TaskOrder

  predicate Finished(t: Task) {
    FieldOf(t, Status) == Scalar("done") || FieldOf(t, Status) == Scalar("cancelled")
  }

  predicate Lists(t: Task, f: Field, item: string) {
    f in t.fields && t.fields[f].Items? && item in t.fields[f].items
  }

  /** The task has the status asked for; asked for none, it is open work unless finished work is wanted too. */
  ghost predicate StatusWanted(t: Task, f: Filters) {
    match f.status
    case Some(text) => exists s :: NamesStatus(text, s) && FieldOf(t, Status) == Scalar(s)
    case None => f.includeTerminal || !Finished(t)
  }

  /** Every filter that is given holds of the task. */
  ghost predicate Wanted(t: Task, f: Filters) {
    && StatusWanted(t, f)
    && (f.scope.Some? ==> NamesScope(f.scope.value, t.scope))
    && (f.companyId.Some? ==> t.companyId == f.companyId.value)
    && (f.repositoryId.Some? ==>
         t.scope == Company || (t.scope == Repo && t.repositoryId == f.repositoryId.value) ||
         (t.scope == MultiRepo && Lists(t, Repositories, f.repositoryId.value)))
    && (f.assignee.Some? ==> Lists(t, Assignees, f.assignee.value))
    && (f.mine.Some? ==> t.authorId == f.mine.value || Lists(t, Assignees, f.mine.value))
    && (f.tag.Some? ==> Lists(t, Labels, f.tag.value))
  }

  /** A status filter that names none; or a scope filter that names none, reached. */
  ghost predicate BadFilter(t: Task, f: Filters) {
    || (f.status.Some? && !exists s :: NamesStatus(f.status.value, s))
    || (f.scope.Some? && !NamesSomeScope(f.scope.value) && StatusWanted(t, f))
  }

  lemma MatchReads(t: Task, f: Filters)
    ensures Matches(t, f).None? <==> BadFilter(t, f)
    ensures Matches(t, f) == Some(true) <==> !BadFilter(t, f) && Wanted(t, f)
  {
    if f.status.Some? {
      StatusFilterReads(f.status.value);
    }
    if f.scope.Some? {
      ScopeReads(f.scope.value, t.scope);
    }
  }

  lemma StatusFilterReads(text: string)
    ensures NormalizeStatus(text).Some? <==> exists s :: NamesStatus(text, s)
    ensures forall s :: NormalizeStatus(text) == Some(s) <==> NamesStatus(text, s)
  {
    forall s ensures NormalizeStatus(text) == Some(s) <==> NamesStatus(text, s) {
      StatusReads(text, s);
    }
  }

  /** Urgent before high before anything else before low. */
  predicate Sooner(p: Value, q: Value) {
    || (p == Scalar("urgent") && q != Scalar("urgent"))
    || (p == Scalar("high") && q != Scalar("urgent") && q != Scalar("high"))
    || (p != Scalar("low") && q == Scalar("low"))
  }

  /** Open work first, then by priority, then newest first, then by ref. */
  predicate WorkBefore(t: Task, u: Task) {
    if Finished(t) != Finished(u) then Finished(u)
    else if Sooner(FieldOf(t, Priority), FieldOf(u, Priority)) then true
    else if Sooner(FieldOf(u, Priority), FieldOf(t, Priority)) then false
    else if t.updatedAt != u.updatedAt then NewerFirst(t.updatedAt, u.updatedAt)
    else Le(t.taskRef, u.taskRef)
  }

  lemma RankReads(t: Task, u: Task)
    ensures Before(RankOf(t), RankOf(u)) <==> WorkBefore(t, u)
  {
    PrioritiesDiffer();
  }

  lemma PrioritiesDiffer()
    ensures "urgent" != "high" && "urgent" != "low" && "high" != "low"
  {
    assert |"urgent"| == 6 && |"high"| == 4 && |"low"| == 3;
  }

  /** The listing raises exactly when some task meets a bad filter; otherwise it holds exactly the wanted tasks, each as
      often as it was given, in work order unless a stamp holds the greatest code point. */
  lemma SelectedReads(tasks: seq<Task>, f: Filters)
    ensures Selected(tasks, f).None? <==> exists t :: t in tasks && BadFilter(t, f)
    ensures Selected(tasks, f).Some? ==>
      var s := Selected(tasks, f).value;
      && (forall t :: multiset(s)[t] == if Wanted(t, f) then multiset(tasks)[t] else 0)
      && (PlainStamps(tasks) ==> forall i, j :: 0 <= i < j < |s| ==> WorkBefore(s[i], s[j]))
  {
    forall t ensures Passes(f)(t) <==> !BadFilter(t, f) && Wanted(t, f) {
      MatchReads(t, f);
    }
    FilterMembers(tasks, Raises(f));
    RaisingIff(tasks, f);
    if Selected(tasks, f).Some? {
      var kept := Filter(tasks, Passes(f));
      var s := Selected(tasks, f).value;
      SortedTasksInOrder(kept);
      FilterMembers(tasks, Passes(f));
      forall t ensures multiset(s)[t] == if Wanted(t, f) then multiset(tasks)[t] else 0 {
        FilterCounts(tasks, Passes(f), t);
      }
      forall i, j | PlainStamps(tasks) && 0 <= i < j < |s| ensures WorkBefore(s[i], s[j]) {
        RankReads(s[i], s[j]);
      }
    }
  }

  lemma RaisingIff(tasks: seq<Task>, f: Filters)
    ensures Filter(tasks, Raises(f)) != [] <==> exists t :: t in tasks && BadFilter(t, f)
  {
    var bad := Filter(tasks, Raises(f));
    FilterMembers(tasks, Raises(f));
    if bad != [] {
      assert bad[0] in bad && Raises(f)(bad[0]);
      MatchReads(bad[0], f);
    }
    if t :| t in tasks && BadFilter(t, f) {
      MatchReads(t, f);
      assert Raises(f)(t);
    }
  }
}
