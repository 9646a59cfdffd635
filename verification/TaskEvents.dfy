/** Task events and the fold that turns a stream of them into tasks (src/canon_systems/tasks.py). */
module TaskEvents {
  import opened Text
  import opened Sorting
  import opened Folds

  // ---- Events ------------------------------------------------------------

  datatype EventType = Created | Updated | Commented | UnknownType(name: string)

  datatype Scope = Repo | Company | MultiRepo

  /** The keys of a `fields` mapping; `Other` is any key the fold ignores. */
  datatype Field =
    | Title | Body | Status | Priority | Due | Branch | Deployment
    | Assignees | Repositories | Labels
    | Other(name: string)

  datatype Value = Scalar(text: string) | Items(items: seq<string>) {
    /** `str(value)`; the text of a list is not modelled, no status or priority matches it. */
    function AsText(): string {
      if Scalar? then text else "[]"
    }
  }

  datatype Assignment = Assignment(field: Field, value: Value)

  /** One ledger line. `scope` is None when the key is absent; `fields` keeps the mapping's order. */
  datatype Event = Event(
    eventType: EventType, eventId: string, taskRef: string, timestamp: string,
    actorId: string, actorDisplay: string, companyId: string,
    scope: Option<string>, repositoryId: string, repositories: seq<string>,
    fields: seq<Assignment>, comment: string)

  // ---- Normalisation and validation ---------------------------------------

  function NormalizeScope(raw: string): Option<Scope> {
    ScopeNamed(DashToUnderscore(Lower(Strip(raw))))
  }

  function ScopeNamed(s: string): Option<Scope> {
    if s == "multirepo" || s == "multi" || s == "multi_repo" then Some(MultiRepo)
    else if s == "repo" then Some(Repo)
    else if s == "company" then Some(Company)
    else None
  }

  const STATUSES := ["open", "in_progress", "blocked", "done", "cancelled"]
  const PRIORITIES := ["low", "normal", "high", "urgent"]

  function NormalizeStatus(raw: string): Option<string> {
    var s := DashToUnderscore(Lower(Strip(raw)));
    var t := if s == "todo" then "open" else if s == "closed" then "done" else s;
    if t in STATUSES then Some(t) else None
  }

  function NormalizePriority(raw: string): Option<string> {
    var p := Lower(Strip(raw));
    if p == "" then Some("normal") else if p in PRIORITIES then Some(p) else None
  }

  predicate NonBlank(s: string) {
    Strip(s) != ""
  }

  /** `validate_event` returns without raising. */
  predicate IsValid(e: Event) {
    && !e.eventType.UnknownType?
    && NonBlank(e.eventId) && NonBlank(e.taskRef) && NonBlank(e.timestamp) && NonBlank(e.actorId)
    && (e.eventType.Created? ==> NormalizeScope(e.scope.GetOr("")).Some?)
  }

  function TextKey(s: string): Key {
    [Codes(s)]
  }

  /** `_clean_list`: stripped, blank-free, duplicate-free, sorted. */
  function CleanList(values: seq<string>): seq<string> {
    SortBy(Distinct(Filter(Map(values, Strip), (s: string) => s != "")), TextKey)
  }

  function NormalizeAssignment(a: Assignment): Option<Assignment> {
    match a.field
    case Status =>
      var s := NormalizeStatus(a.value.AsText());
      if s.None? then None else Some(Assignment(Status, Scalar(s.value)))
    case Priority =>
      var p := NormalizePriority(a.value.AsText());
      if p.None? then None else Some(Assignment(Priority, Scalar(p.value)))
    case Assignees | Repositories | Labels =>
      Some(Assignment(a.field, Items(CleanList(if a.value.Items? then a.value.items else [a.value.text]))))
    case Other(_) => Some(a)
    case _ => Some(Assignment(a.field, Scalar(Strip(a.value.AsText()))))
  }

  /** `_normalize_fields`: unknown keys are dropped, a bad status or priority raises. */
  function NormalizeFields(fields: seq<Assignment>): Option<seq<Assignment>> {
    if fields == [] then Some([])
    else
      var head := NormalizeAssignment(fields[0]);
      var tail := NormalizeFields(fields[1..]);
      if head.None? || tail.None? then None
      else if head.value.field.Other? then tail
      else Some([head.value] + tail.value)
  }

  /** `make_event`: None stands for a raised TaskError. */
  function MakeEvent(eventType: EventType, eventId: string, taskRef: string, timestamp: string,
                     actorId: string, actorDisplay: string, companyId: string, scope: string,
                     repositoryId: string, repositories: seq<string>,
                     fields: seq<Assignment>, comment: string): (r: Option<Event>)
  {
    var sc := NormalizeScope(scope);
    var created := eventType.Created?;
    var fs := NormalizeFields(fields);
    if eventType.UnknownType? || (created && sc.None?) || fs.None? then None
    else
      var e := Event(
        eventType, Strip(eventId), Strip(taskRef), Strip(timestamp), Strip(actorId), Strip(actorDisplay),
        Strip(companyId),
        if created then Some(ScopeName(sc.value)) else None,
        if created && sc.value != MultiRepo then Strip(repositoryId) else "",
        if created && sc.value == MultiRepo then CleanList(repositories) else [],
        fs.value, Strip(comment));
      if IsValid(e) then Some(e) else None
  }

  function ScopeName(s: Scope): string {
    match s case Repo => "repo" case Company => "company" case MultiRepo => "multi_repo"
  }

  // ---- Tasks -------------------------------------------------------------

  datatype Comment = Comment(ts: string, actor: string, actorDisplay: string, text: string)

  /** One history line: the tracked field, its value before and after. */
  datatype Change = Change(ts: string, actor: string, field: Field, before: Value, after: Value)

  datatype Task = Task(
    taskRef: string, scope: Scope, companyId: string, repositoryId: string,
    authorId: string, authorDisplay: string,
    fields: map<Field, Value>,
    createdAt: string, updatedAt: string,
    comments: seq<Comment>, history: seq<Change>)

  type State = map<string, Task>

  function FieldOf(t: Task, f: Field): Value {
    if f in t.fields then t.fields[f] else Scalar("")
  }

  /** The value `_new_task` gives a field. */
  function DefaultOf(f: Field, repositories: seq<string>): Value {
    match f
    case Status => Scalar("open")
    case Priority => Scalar("normal")
    case Assignees | Labels => Items([])
    case Repositories => Items(repositories)
    case _ => Scalar("")
  }

  const SETTABLE: set<Field> :=
    {Title, Body, Status, Priority, Due, Branch, Deployment, Assignees, Repositories, Labels}

  /** `_new_task`: None when the scope does not normalise (the TaskError escapes the fold). */
  function NewTask(e: Event): Option<Task> {
    var scope := NormalizeScope(e.scope.GetOr("company"));
    if scope.None? then None
    else Some(Task(e.taskRef, scope.value, e.companyId, e.repositoryId, e.actorId, e.actorDisplay,
                   map f | f in SETTABLE :: DefaultOf(f, e.repositories),
                   e.timestamp, e.timestamp, [], []))
  }

  predicate IsTracked(f: Field) {
    f == Status || f == Branch || f == Deployment
  }

  function ApplyField(t: Task, a: Assignment, e: Event): Task {
    if a.field.Other? then t
    else
      var before := FieldOf(t, a.field);
      t.(fields := t.fields[a.field := a.value],
         history := if IsTracked(a.field) && before != a.value
                    then t.history + [Change(e.timestamp, e.actorId, a.field, before, a.value)]
                    else t.history)
  }

  function ApplyFields(t: Task, fields: seq<Assignment>, e: Event): Task {
    if fields == [] then t
    else ApplyField(ApplyFields(t, fields[..|fields| - 1], e), fields[|fields| - 1], e)
  }

  predicate IsComment(e: Event) {
    e.eventType.Commented? && NonBlank(e.comment)
  }

  function CommentOf(e: Event): Comment {
    Comment(e.timestamp, e.actorId, e.actorDisplay, Strip(e.comment))
  }

  /** The part of `fold_event` after the task is known to exist. */
  function Absorb(t: Task, e: Event): Task {
    var t1 := ApplyFields(t, e.fields, e);
    var t2 := if IsComment(e) then t1.(comments := t1.comments + [CommentOf(e)]) else t1;
    if Le(e.timestamp, t2.updatedAt) then t2 else t2.(updatedAt := e.timestamp)
  }

  function RefOf(e: Event): string {
    e.taskRef
  }

  /** `fold_event`; a first event that is not `task_created` becomes a stub. */
  function FoldEvent(s: State, e: Event): Option<State> {
    Upsert(RefOf, NewTask, Absorb)(s, e)
  }

  function FoldAll(es: seq<Event>): Option<State> {
    Run(Upsert(RefOf, NewTask, Absorb), map[], es)
  }

  /** The `_sort_events` key. */
  function EventKey(e: Event): Key {
    [Codes(e.timestamp), Codes(e.eventId)]
  }

  function ValidInOrder(events: seq<Event>): seq<Event> {
    Filter(SortBy(events, EventKey), IsValid)
  }

  function Materialized(events: seq<Event>): Option<State> {
    FoldAll(ValidInOrder(events))
  }

  // ---- The loop code -------------------------------------------------------

  /** `_apply_fields` and the rest of `fold_event`, on the task's own dictionary. */
  method AbsorbInto(before: Task, e: Event) returns (task: Task)
    ensures task == Absorb(before, e)
  {
    task := before;
    for i := 0 to |e.fields|
      invariant task == ApplyFields(before, e.fields[..i], e)
    {
      task := ApplyField(task, e.fields[i], e);
      assert e.fields[..i + 1][..i] == e.fields[..i];
    }
    assert e.fields[..|e.fields|] == e.fields;
    if IsComment(e) {
      task := task.(comments := task.comments + [CommentOf(e)]);
    }
    if !Le(e.timestamp, task.updatedAt) {
      task := task.(updatedAt := e.timestamp);
    }
  }

  /** The `state` dictionary that `fold_event` mutates. */
  class TaskTable {
    var state: State

    constructor ()
      ensures state == map[]
    {
      state := map[];
    }

    /** Raises exactly when the specification has no next state, leaving the table as it was. */
    method Fold(e: Event) returns (raised: bool)
      modifies this
      ensures raised == FoldEvent(old(state), e).None?
      ensures state == if raised then old(state) else FoldEvent(old(state), e).value
    {
      var entry := if e.taskRef in state then Some(state[e.taskRef]) else NewTask(e);
      UpsertStep(RefOf, NewTask, Absorb, state, e);
      if entry.None? {
        return true;
      }
      var task := AbsorbInto(entry.value, e);
      state := state[e.taskRef := task];
      return false;
    }
  }

  /** `materialize`: sort, skip malformed events, fold the rest. */
  method Materialize(events: seq<Event>) returns (r: Option<State>)
    ensures r == Materialized(events)
  {
    var table := new TaskTable();
    var sorted := SortBy(events, EventKey);
    ghost var done := [];
    for i := 0 to |sorted|
      invariant done == Filter(sorted[..i], IsValid)
      invariant FoldAll(done) == Some(table.state)
    {
      ghost var more := FilterSplit(sorted, i, IsValid);
      if IsValid(sorted[i]) {
        RunSnoc(Upsert(RefOf, NewTask, Absorb), map[], done, sorted[i]);
        var raised := table.Fold(sorted[i]);
        if raised {
          RunStops(Upsert(RefOf, NewTask, Absorb), map[], done + [sorted[i]], more);
          return None;
        }
        done := done + [sorted[i]];
      }
    }
    assert sorted[..|sorted|] == sorted;
    return Some(table.state);
  }
}
