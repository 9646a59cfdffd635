/** What materialising shows, read off the ledger lines themselves. */
module TaskMeaning {
  import opened Text
  import opened Sorting
  import Folds
  import opened TaskEvents
  import opened TaskHistory

  // ---- Which lines count, and in what order ----------------------------------------------

  /** The text, trimmed, in lower case and with dashes as underscores, names the scope. */
  predicate NamesScope(raw: string, s: Scope) {
    var name := DashToUnderscore(Lower(Strip(raw)));
    match s
    case Repo => name == "repo"
    case Company => name == "company"
    case MultiRepo => name == "multi_repo" || name == "multirepo" || name == "multi"
  }

  predicate NamesSomeScope(raw: string) {
    NamesScope(raw, Repo) || NamesScope(raw, Company) || NamesScope(raw, MultiRepo)
  }

  lemma ScopeReads(raw: string, s: Scope)
    ensures NormalizeScope(raw) == Some(s) <==> NamesScope(raw, s)
    ensures NormalizeScope(raw).Some? <==> NamesSomeScope(raw)
  {
    var name := DashToUnderscore(Lower(Strip(raw)));
    assert |"repo"| == 4 && |"company"| == 7 && |"multi_repo"| == 10 && |"multirepo"| == 9 && |"multi"| == 5;
    assert name == "repo" ==> |name| == 4;
    assert name == "company" ==> |name| == 7;
  }

  /** A line with a known type, its four required texts, and a scope when it creates. */
  predicate WellFormed(e: Event) {
    && (e.eventType.Created? || e.eventType.Updated? || e.eventType.Commented?)
    && Strip(e.eventId) != "" && Strip(e.taskRef) != "" && Strip(e.timestamp) != "" && Strip(e.actorId) != ""
    && (e.eventType.Created? ==> e.scope.Some? && NamesSomeScope(e.scope.value))
  }

  lemma WellFormedIff(e: Event)
    ensures IsValid(e) <==> WellFormed(e)
  {
    ScopeReads(e.scope.GetOr(""), Repo);
    if e.eventType.Created? && e.scope.None? {
      BlankNamesNoScope();
    }
  }

  lemma BlankNamesNoScope()
    ensures !NamesSomeScope("")
  {
    assert Strip("") == "";
    assert |DashToUnderscore(Lower(""))| == 0;
  }

  /** By time stamp, then by id. */
  predicate NotAfter(e: Event, f: Event) {
    if e.timestamp != f.timestamp then Le(e.timestamp, f.timestamp) else Le(e.eventId, f.eventId)
  }

  lemma EventOrder(e: Event, f: Event)
    requires KeyLe(EventKey(e), EventKey(f))
    ensures NotAfter(e, f)
  {
    var x, y := EventKey(e), EventKey(f);
    assert x[1..] == [Codes(e.eventId)] && y[1..] == [Codes(f.eventId)];
    assert x[1..][1..] == [] && y[1..][1..] == [];
    LeTotal(e.eventId, f.eventId);
    if Codes(e.timestamp) == Codes(f.timestamp) {
      CodesInjective(e.timestamp, f.timestamp);
    }
    if Codes(e.eventId) == Codes(f.eventId) {
      CodesInjective(e.eventId, f.eventId);
      LeTotal(e.eventId, e.eventId);
    }
  }

  /** A task's stream is its well-formed lines, each as often as the ledger has it, in time order. */
  lemma StreamReads(events: seq<Event>, r: string)
    ensures var s := TaskStream(events, r);
            && (forall e :: multiset(s)[e] == if WellFormed(e) && e.taskRef == r then multiset(events)[e] else 0)
            && (forall i, j :: 0 <= i < j < |s| ==> NotAfter(s[i], s[j]))
  {
    var s := TaskStream(events, r);
    var sorted := SortBy(events, EventKey);
    SortLaws(events, EventKey);
    TaskStreamContents(events, r);
    forall e ensures multiset(s)[e] == if WellFormed(e) && e.taskRef == r then multiset(events)[e] else 0 {
      WellFormedIff(e);
      FilterCounts(sorted, IsValid, e);
      FilterCounts(ValidInOrder(events), Folds.WithKey(RefOf, r), e);
    }
    forall i, j | 0 <= i < j < |s| ensures NotAfter(s[i], s[j]) {
      EventOrder(s[i], s[j]);
    }
  }

  // ---- What a task shows ------------------------------------------------------------------

  /** The comments a stream leaves: one for each comment line with a text. */
  function Said(s: seq<Event>): seq<Comment> {
    if s == [] then []
    else
      var e := s[|s| - 1];
      Said(s[..|s| - 1]) + if e.eventType.Commented? && Strip(e.comment) != ""
                           then [Comment(e.timestamp, e.actorId, e.actorDisplay, Strip(e.comment))] else []
  }

  lemma {:induction false} SaidIsFiltered(s: seq<Event>)
    ensures Said(s) == Map(Filter(s, IsComment), CommentOf)
  {
    if s != [] {
      var front, e := s[..|s| - 1], s[|s| - 1];
      assert s == front + [e];
      SaidIsFiltered(front);
      MapFilterSnoc(front, e, IsComment, CommentOf);
    }
  }

  /** The field holds what the stream last assigned to it, or what it starts with. */
  ghost predicate Shows(t: Task, s: seq<Event>, f: Field, initial: Value) {
    f in t.fields && HoldsLatest(Assignments(s), f, initial, t.fields[f])
  }

  ghost predicate ShowsFields(t: Task, s: seq<Event>)
    requires s != []
  {
    && Shows(t, s, Title, Scalar("")) && Shows(t, s, Body, Scalar("")) && Shows(t, s, Due, Scalar(""))
    && Shows(t, s, Branch, Scalar("")) && Shows(t, s, Deployment, Scalar(""))
    && Shows(t, s, Status, Scalar("open")) && Shows(t, s, Priority, Scalar("normal"))
    && Shows(t, s, Assignees, Items([])) && Shows(t, s, Labels, Items([]))
    && Shows(t, s, Repositories, Items(s[0].repositories))
  }

  /** Where the task comes from: its first line. */
  predicate Origin(t: Task, e: Event) {
    && t.taskRef == e.taskRef && t.companyId == e.companyId && t.repositoryId == e.repositoryId
    && t.authorId == e.actorId && t.authorDisplay == e.actorDisplay && t.createdAt == e.timestamp
    && NamesScope(if e.scope.Some? then e.scope.value else "company", t.scope)
  }

  /** Everything a task shows, said by its stream. */
  ghost predicate Reads(t: Task, s: seq<Event>)
    requires s != []
  {
    && Origin(t, s[0]) && ShowsFields(t, s)
    && t.comments == Said(s) && t.history == Changes(Writes(s))
    && (exists e :: e in s && e.timestamp == t.updatedAt) && forall e :: e in s ==> Le(e.timestamp, t.updatedAt)
  }

  lemma {:induction false} AbsorbedHas(t: Task, s: seq<Event>, f: Field)
    requires f in t.fields
    ensures f in AbsorbAll(t, s).fields
  {
    if s != [] {
      AbsorbedHas(t, s[..|s| - 1], f);
      AbsorbAllSnoc(t, s);
      AppliedHas(AbsorbAll(t, s[..|s| - 1]), s[|s| - 1].fields, s[|s| - 1], f);
    }
  }

  lemma {:induction false} AppliedHas(t: Task, fields: seq<Assignment>, e: Event, f: Field)
    requires f in t.fields
    ensures f in ApplyFields(t, fields, e).fields
  {
    if fields != [] {
      AppliedHas(t, fields[..|fields| - 1], e, f);
    }
  }

  lemma FieldShown(t: Task, s: seq<Event>, f: Field)
    requires s != [] && f in t.fields && f in SETTABLE && FieldsMeetSpec(AbsorbAll(t, s), s)
    ensures Shows(AbsorbAll(t, s), s, f, DefaultOf(f, s[0].repositories))
  {
    AbsorbedHas(t, s, f);
  }

  lemma FieldsShown(t: Task, s: seq<Event>)
    requires s != [] && (forall f :: f in SETTABLE ==> f in t.fields) && FieldsMeetSpec(AbsorbAll(t, s), s)
    ensures ShowsFields(AbsorbAll(t, s), s)
  {
    FieldShown(t, s, Title);
    FieldShown(t, s, Body);
    FieldShown(t, s, Due);
    FieldShown(t, s, Branch);
    FieldShown(t, s, Deployment);
    FieldShown(t, s, Status);
    FieldShown(t, s, Priority);
    FieldShown(t, s, Assignees);
    FieldShown(t, s, Labels);
    FieldShown(t, s, Repositories);
  }

  /** A ref has a task exactly when the ledger has a well-formed line for it, and the task shows what its lines say. */
  lemma MaterializedReads(events: seq<Event>, r: string)
    requires Materialized(events).Some?
    ensures r in Materialized(events).value <==> exists e :: e in events && WellFormed(e) && e.taskRef == r
    ensures r in Materialized(events).value ==>
              TaskStream(events, r) != [] && Reads(Materialized(events).value[r], TaskStream(events, r))
  {
    var s := TaskStream(events, r);
    MaterializedTask(events, r);
    TaskStreamContents(events, r);
    forall e ensures IsValid(e) <==> WellFormed(e) {
      WellFormedIff(e);
    }
    if s != [] {
      assert s[0] in s;
      var first := NewTask(s[0]).value;
      MaterializedMeetsSpec(events, r);
      ScopeReads(s[0].scope.GetOr("company"), first.scope);
      SaidIsFiltered(s);
      FieldsShown(first, s);
    }
    if e :| e in events && WellFormed(e) && e.taskRef == r {
      assert e in s;
    }
  }

  /** Materialising raises exactly when the earliest line of some task names a scope that is none. */
  lemma RaisesReads(events: seq<Event>)
    ensures Materialized(events).None? <==>
            exists r :: var s := TaskStream(events, r);
                        s != [] && s[0].scope.Some? && !NamesSomeScope(s[0].scope.value)
  {
    MaterializeRaisesIff(events);
    forall r | TaskStream(events, r) != []
      ensures var e := TaskStream(events, r)[0];
              NewTask(e).None? <==> e.scope.Some? && !NamesSomeScope(e.scope.value)
    {
      FirstLineScope(TaskStream(events, r)[0]);
    }
  }

  lemma FirstLineScope(e: Event)
    ensures NewTask(e).None? <==> e.scope.Some? && !NamesSomeScope(e.scope.value)
  {
    ScopeReads(e.scope.GetOr("company"), Company);
    CompanyNamesItself();
  }

  lemma CompanyNamesItself()
    ensures NamesScope("company", Company)
  {
    var s := "company";
    assert Stripped(s);
    StripIdempotent(s);
    PlainStays(s);
  }

  lemma {:induction false} PlainStays(s: string)
    requires forall i :: 0 <= i < |s| ==> 'a' <= s[i] <= 'z'
    ensures Lower(s) == s && DashToUnderscore(s) == s
  {
    if s != "" {
      PlainStays(s[1..]);
      assert s == [s[0]] + s[1..];
    }
  }
}
