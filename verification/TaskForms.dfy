/** What `make_event` accepts and writes, text by text (src/canon_systems/tasks.py). */
module TaskForms {
  import opened Text
  import opened Sorting
  import opened TaskEvents
  import opened TaskMeaning
  import TaskMaking

  // ---- Lists ------------------------------------------------------------------------------

  /** The trimmed non-blank texts of `values`, each once, in ascending order. */
  ghost predicate CleanedOf(values: seq<string>, out: seq<string>) {
    && (forall x :: x in out <==> x != "" && exists v :: v in values && Strip(v) == x)
    && (forall i, j :: 0 <= i < j < |out| ==> Le(out[i], out[j]) && out[i] != out[j])
  }

  lemma CleanListReads(values: seq<string>)
    ensures CleanedOf(values, CleanList(values))
  {
    var stripped := Map(values, Strip);
    var kept := Filter(stripped, (s: string) => s != "");
    var out := CleanList(values);
    FilterMembers(stripped, (s: string) => s != "");
    SortLaws(Distinct(kept), TextKey);
    SortMembers(Distinct(kept), TextKey);
    forall x ensures x in stripped <==> exists v :: v in values && Strip(v) == x {
      MapHas(values, x);
    }
    PermutedNoDup(Distinct(kept), out);
    forall i, j | 0 <= i < j < |out| ensures Le(out[i], out[j]) && out[i] != out[j] {
      TextOrder(out[i], out[j]);
    }
  }

  lemma MapHas(values: seq<string>, x: string)
    ensures x in Map(values, Strip) <==> exists v :: v in values && Strip(v) == x
  {
    if x in Map(values, Strip) {
      var i :| 0 <= i < |values| && Map(values, Strip)[i] == x;
      assert values[i] in values;
    }
    if v :| v in values && Strip(v) == x {
      var i :| 0 <= i < |values| && values[i] == v;
      assert Map(values, Strip)[i] == x;
    }
  }

  lemma TextOrder(a: string, b: string)
    requires KeyLe(TextKey(a), TextKey(b))
    ensures Le(a, b)
  {
    assert TextKey(a)[1..] == [] && TextKey(b)[1..] == [];
    LeTotal(a, b);
    if Codes(a) == Codes(b) {
      CodesInjective(a, b);
    }
  }

  // ---- Fields -----------------------------------------------------------------------------

  /** The status a text stands for, if any. */
  predicate NamesStatus(raw: string, status: string) {
    var name := DashToUnderscore(Lower(Strip(raw)));
    || (name == status && (name == "open" || name == "in_progress" || name == "blocked" || name == "done" ||
                           name == "cancelled"))
    || (name == "todo" && status == "open")
    || (name == "closed" && status == "done")
  }

  /** The priority a text stands for; a blank text stands for `normal`. */
  predicate NamesPriority(raw: string, priority: string) {
    var name := Lower(Strip(raw));
    || (name == priority && (name == "low" || name == "normal" || name == "high" || name == "urgent"))
    || (name == "" && priority == "normal")
  }

  lemma StatusReads(raw: string, status: string)
    ensures NormalizeStatus(raw) == Some(status) <==> NamesStatus(raw, status)
  {
    var name := DashToUnderscore(Lower(Strip(raw)));
    StatusesAre(name);
    StatusesAre("open");
    StatusesAre("done");
    assert |"todo"| == 4 && |"closed"| == 6 && |"open"| == 4 && |"done"| == 4 && "todo"[0] == 't';
    assert "open"[0] == 'o' && "done"[0] == 'd' && |"blocked"| == 7 && |"in_progress"| == 11 && |"cancelled"| == 9;
  }

  lemma StatusesAre(name: string)
    ensures name in STATUSES <==> name == "open" || name == "in_progress" || name == "blocked" || name == "done" ||
                                  name == "cancelled"
  {
    assert STATUSES[0] == "open" && STATUSES[1] == "in_progress" && STATUSES[2] == "blocked";
    assert STATUSES[3] == "done" && STATUSES[4] == "cancelled";
  }

  lemma PriorityReads(raw: string, priority: string)
    ensures NormalizePriority(raw) == Some(priority) <==> NamesPriority(raw, priority)
  {
    var name := Lower(Strip(raw));
    assert PRIORITIES[0] == "low" && PRIORITIES[1] == "normal" && PRIORITIES[2] == "high" && PRIORITIES[3] == "urgent";
    assert name in PRIORITIES <==> name == "low" || name == "normal" || name == "high" || name == "urgent";
    assert |"low"| == 3 && |"normal"| == 6 && |"high"| == 4 && |"urgent"| == 6;
  }

  predicate KnownField(a: Assignment) {
    !a.field.Other?
  }

  ghost predicate AcceptedField(a: Assignment) {
    && (a.field == Status ==> exists s :: NamesStatus(a.value.AsText(), s))
    && (a.field == Priority ==> exists p :: NamesPriority(a.value.AsText(), p))
  }

  /** `b` is `a` as it is recorded. */
  ghost predicate RecordedField(a: Assignment, b: Assignment) {
    && b.field == a.field
    && match a.field
       case Status => b.value.Scalar? && NamesStatus(a.value.AsText(), b.value.text)
       case Priority => b.value.Scalar? && NamesPriority(a.value.AsText(), b.value.text)
       case Assignees | Repositories | Labels =>
         b.value.Items? && CleanedOf(if a.value.Items? then a.value.items else [a.value.text], b.value.items)
       case Other(_) => b == a
       case _ => b.value == Scalar(Strip(a.value.AsText()))
  }

  lemma FieldReads(a: Assignment)
    ensures NormalizeAssignment(a).Some? <==> AcceptedField(a)
    ensures NormalizeAssignment(a).Some? ==> RecordedField(a, NormalizeAssignment(a).value)
  {
    var text := a.value.AsText();
    if a.field == Status {
      if NormalizeStatus(text).Some? {
        StatusReads(text, NormalizeStatus(text).value);
      }
      if s :| NamesStatus(text, s) {
        StatusReads(text, s);
      }
    } else if a.field == Priority {
      if NormalizePriority(text).Some? {
        PriorityReads(text, NormalizePriority(text).value);
      }
      if p :| NamesPriority(text, p) {
        PriorityReads(text, p);
      }
    } else {
      CleanListReads(if a.value.Items? then a.value.items else [a.value.text]);
    }
  }

  /** The known fields in order, each as recorded. */
  ghost predicate RecordedFields(fields: seq<Assignment>, out: seq<Assignment>) {
    var known := Filter(fields, KnownField);
    |out| == |known| && forall i :: 0 <= i < |out| ==> RecordedField(known[i], out[i])
  }

  lemma {:induction false} FieldsRead(fields: seq<Assignment>)
    ensures NormalizeFields(fields).Some? <==> forall a :: a in fields ==> AcceptedField(a)
    ensures NormalizeFields(fields).Some? ==> RecordedFields(fields, NormalizeFields(fields).value)
  {
    if fields != [] {
      var a, rest := fields[0], fields[1..];
      assert fields == [a] + rest;
      FieldReads(a);
      FieldsRead(rest);
    }
  }

  // ---- Events -----------------------------------------------------------------------------

  /** What `make_event` refuses: an unknown type, a created event without a scope, a blank required text, a status or
      priority that is none. */
  ghost predicate Acceptable(eventType: EventType, eventId: string, taskRef: string, timestamp: string, actorId: string,
                             scope: string, fields: seq<Assignment>)
  {
    && !eventType.UnknownType? && (eventType.Created? ==> NamesSomeScope(scope))
    && Strip(eventId) != "" && Strip(taskRef) != "" && Strip(timestamp) != "" && Strip(actorId) != ""
    && forall a :: a in fields ==> AcceptedField(a)
  }

  /** The recorded text names the scope that was asked for. */
  predicate RecordedScope(scope: string, out: Option<string>) {
    && (NamesScope(scope, Repo) ==> out == Some("repo"))
    && (NamesScope(scope, Company) ==> out == Some("company"))
    && (NamesScope(scope, MultiRepo) ==> out == Some("multi_repo"))
  }

  /** The scope, repository and repositories of a recorded event. */
  ghost predicate RecordedPlace(created: bool, scope: string, repositoryId: string, repositories: seq<string>, e: Event)
  {
    && (created ==> RecordedScope(scope, e.scope))
    && (!created ==> e.scope.None? && e.repositoryId == "" && e.repositories == [])
    && (created && NamesScope(scope, MultiRepo) ==> e.repositoryId == "" && CleanedOf(repositories, e.repositories))
    && (created && !NamesScope(scope, MultiRepo) ==>
         e.repositoryId == Strip(repositoryId) && e.repositories == [])
  }

  lemma MadeEventAccepted(eventType: EventType, eventId: string, taskRef: string, timestamp: string,
                          actorId: string, actorDisplay: string, companyId: string, scope: string,
                          repositoryId: string, repositories: seq<string>, fields: seq<Assignment>, comment: string)
    ensures MakeEvent(eventType, eventId, taskRef, timestamp, actorId, actorDisplay, companyId, scope,
                      repositoryId, repositories, fields, comment).Some? <==>
            Acceptable(eventType, eventId, taskRef, timestamp, actorId, scope, fields)
  {
    FieldsRead(fields);
    StripIdempotent(eventId);
    StripIdempotent(taskRef);
    StripIdempotent(timestamp);
    StripIdempotent(actorId);
    ScopeReads(scope, Repo);
    if NormalizeScope(scope).Some? {
      RecordedScopeUsable(NormalizeScope(scope).value);
    }
  }

  lemma ScopeIsRecorded(scope: string)
    requires NormalizeScope(scope).Some?
    ensures RecordedScope(scope, Some(ScopeName(NormalizeScope(scope).value)))
    ensures NormalizeScope(scope).value == MultiRepo <==> NamesScope(scope, MultiRepo)
  {
    ScopeReads(scope, Repo);
    ScopeReads(scope, Company);
    ScopeReads(scope, MultiRepo);
  }

  /** An accepted event holds the trimmed texts, each under its own name, the scope asked for with the repository or
      repositories that go with it, and the fields as recorded. */
  lemma MadeEventReads(eventType: EventType, eventId: string, taskRef: string, timestamp: string,
                       actorId: string, actorDisplay: string, companyId: string, scope: string,
                       repositoryId: string, repositories: seq<string>, fields: seq<Assignment>, comment: string)
    ensures var r := MakeEvent(eventType, eventId, taskRef, timestamp, actorId, actorDisplay, companyId, scope,
                               repositoryId, repositories, fields, comment);
            r.Some? ==>
              var e := r.value;
              && e.eventType == eventType && e.eventId == Strip(eventId) && e.taskRef == Strip(taskRef)
              && e.timestamp == Strip(timestamp) && e.actorId == Strip(actorId)
              && e.actorDisplay == Strip(actorDisplay) && e.companyId == Strip(companyId)
              && e.comment == Strip(comment) && RecordedFields(fields, e.fields)
              && RecordedPlace(eventType.Created?, scope, repositoryId, repositories, e)
  {
    FieldsRead(fields);
    CleanListReads(repositories);
    if NormalizeScope(scope).Some? {
      ScopeIsRecorded(scope);
    }
  }

  lemma RecordedScopeUsable(s: Scope)
    ensures NormalizeScope(ScopeName(s)).Some?
    ensures ScopeName(s) == match s case Repo => "repo" case Company => "company" case MultiRepo => "multi_repo"
  {
    TaskMaking.ScopeNameNormalizes(s);
  }
}
