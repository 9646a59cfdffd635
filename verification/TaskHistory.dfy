/** What a folded task means: locality per task, and a declarative reading of every field. */
module TaskHistory {
  import opened Text
  import opened Sorting
  import opened Folds
  import opened TaskEvents

  /** The valid events of one task, in fold order. */
  function TaskStream(events: seq<Event>, r: string): seq<Event> {
    Filter(ValidInOrder(events), WithKey(RefOf, r))
  }

  /** A task's life: created by its first event, then every event of the stream absorbed in turn. */
  function AbsorbAll(t: Task, es: seq<Event>): Task {
    Total(Absorb, t, es)
  }

  lemma ValidInOrderContents(events: seq<Event>)
    ensures Sorted(ValidInOrder(events), EventKey)
    ensures forall e :: e in ValidInOrder(events) <==> e in events && IsValid(e)
  {
    var sorted := SortBy(events, EventKey);
    SortLaws(events, EventKey);
    SortMembers(events, EventKey);
    FilterKeepsSorted(sorted, IsValid, EventKey);
    FilterMembers(sorted, IsValid);
  }

  lemma TaskStreamContents(events: seq<Event>, r: string)
    ensures Sorted(TaskStream(events, r), EventKey)
    ensures forall e :: e in TaskStream(events, r) <==> e in events && IsValid(e) && e.taskRef == r
  {
    ValidInOrderContents(events);
    FilterKeepsSorted(ValidInOrder(events), WithKey(RefOf, r), EventKey);
    forall e ensures e in TaskStream(events, r) <==> e in ValidInOrder(events) && e.taskRef == r {
      FilterMember(ValidInOrder(events), WithKey(RefOf, r), e);
      assert WithKey(RefOf, r)(e) <==> e.taskRef == r;
    }
  }

  // ---- Locality ------------------------------------------------------------

  /** The fold of the whole ledger, seen at task `r`, is the fold of that task's events alone. */
  lemma FoldLocality(events: seq<Event>, r: string)
    requires Materialized(events).Some?
    ensures FoldAll(TaskStream(events, r)).Some?
    ensures r in Materialized(events).value <==> r in FoldAll(TaskStream(events, r)).value
    ensures r in Materialized(events).value ==>
              Materialized(events).value[r] == FoldAll(TaskStream(events, r)).value[r]
  {
    Locality(RefOf, NewTask, Absorb, ValidInOrder(events), r);
  }

  /** `materialize` raises exactly when some task's earliest valid event has no usable scope. */
  lemma MaterializeRaisesIff(events: seq<Event>)
    ensures Materialized(events).None? <==>
            exists r :: TaskStream(events, r) != [] && NewTask(TaskStream(events, r)[0]).None?
  {
    var es := ValidInOrder(events);
    if Materialized(events).None? {
      var r := RaisingKey(RefOf, NewTask, Absorb, es);
      assert TaskStream(events, r) == Filter(es, WithKey(RefOf, r));
    }
    if r :| TaskStream(events, r) != [] && NewTask(TaskStream(events, r)[0]).None? {
      WithKeyOnly(RefOf, r, es);
      OneKeyFold(RefOf, NewTask, Absorb, TaskStream(events, r), r);
      if Materialized(events).Some? {
        FoldLocality(events, r);
      }
    }
  }

  /** The whole materialised state, task by task. */
  lemma MaterializedTask(events: seq<Event>, r: string)
    requires Materialized(events).Some?
    ensures var s := TaskStream(events, r);
            && (r in Materialized(events).value <==> s != [])
            && (s != [] ==> NewTask(s[0]).Some? &&
                            Materialized(events).value[r] == AbsorbAll(NewTask(s[0]).value, s))
  {
    var es := ValidInOrder(events);
    FoldLocality(events, r);
    WithKeyOnly(RefOf, r, es);
    if TaskStream(events, r) != [] {
      OneKeyFold(RefOf, NewTask, Absorb, TaskStream(events, r), r);
    }
  }

  // ---- Declarative specification -------------------------------------------

  /** Every assignment of a stream, in the order the fold meets them. */
  function Assignments(s: seq<Event>): seq<Assignment> {
    if s == [] then [] else Assignments(s[..|s| - 1]) + s[|s| - 1].fields
  }

  /** `v` was assigned to `f` and nothing assigned to `f` afterwards; or `f` kept its initial value. */
  ghost predicate HoldsLatest(writes: seq<Assignment>, f: Field, initial: Value, v: Value) {
    || (v == initial && forall j :: 0 <= j < |writes| ==> writes[j].field != f)
    || (exists j :: 0 <= j < |writes| && writes[j] == Assignment(f, v) &&
          forall k :: j < k < |writes| ==> writes[k].field != f)
  }

  function OnField(f: Field): Change -> bool {
    (c: Change) => c.field == f
  }

  /** Each change starts from the value the previous one left, and really changes it. */
  predicate Chained(initial: Value, changes: seq<Change>, current: Value)
    decreases |changes|
  {
    if changes == [] then initial == current
    else
      && changes[0].before == initial && changes[0].before != changes[0].after
      && Chained(changes[0].after, changes[1..], current)
  }

  ghost predicate FieldsMeetSpec(t: Task, s: seq<Event>)
    requires s != []
  {
    forall f: Field :: f in SETTABLE ==>
      HoldsLatest(Assignments(s), f, DefaultOf(f, s[0].repositories), FieldOf(t, f))
  }

  /** Every history line concerns a tracked field, and per field the lines lead from the default to now. */
  ghost predicate HistoryOk(t: Task) {
    && (forall c :: c in t.history ==> IsTracked(c.field))
    && (forall f: Field :: IsTracked(f) ==>
          Chained(DefaultOf(f, []), Filter(t.history, OnField(f)), FieldOf(t, f)))
  }

  /** One write: an assignment with the event that makes it. */
  datatype Write = Write(event: Event, field: Field, value: Value)

  function WritesOf(e: Event, fields: seq<Assignment>): seq<Write> {
    if fields == [] then []
    else
      var a := fields[|fields| - 1];
      WritesOf(e, fields[..|fields| - 1]) + [Write(e, a.field, a.value)]
  }

  /** Every write of a stream, in the order the fold meets them. */
  function Writes(s: seq<Event>): seq<Write> {
    if s == [] then [] else Writes(s[..|s| - 1]) + WritesOf(s[|s| - 1], s[|s| - 1].fields)
  }

  /** The value last written to a tracked field, or what it starts with. */
  function Written(ws: seq<Write>, f: Field): Value {
    if ws == [] then Scalar(if f == Status then "open" else "")
    else if ws[|ws| - 1].field == f then ws[|ws| - 1].value
    else Written(ws[..|ws| - 1], f)
  }

  /** The history the writes deserve: one line for each write that changes a tracked field, with the time and the actor
      of its event. */
  function Changes(ws: seq<Write>): seq<Change> {
    if ws == [] then []
    else
      var front, w := ws[..|ws| - 1], ws[|ws| - 1];
      var before := Written(front, w.field);
      Changes(front) +
      if (w.field == Status || w.field == Branch || w.field == Deployment) && before != w.value
      then [Change(w.event.timestamp, w.event.actorId, w.field, before, w.value)] else []
  }

  /** `stamp` is the greatest timestamp of the stream. */
  ghost predicate Latest(stamp: string, s: seq<Event>) {
    && (exists e :: e in s && e.timestamp == stamp)
    && (forall e :: e in s ==> Le(e.timestamp, stamp))
  }

  ghost predicate UpdatedAtIsLatest(t: Task, s: seq<Event>) {
    Latest(t.updatedAt, s)
  }

  predicate SameOrigin(t: Task, u: Task) {
    t.taskRef == u.taskRef && t.scope == u.scope && t.companyId == u.companyId &&
    t.repositoryId == u.repositoryId && t.authorId == u.authorId && t.authorDisplay == u.authorDisplay &&
    t.createdAt == u.createdAt
  }

  /** Everything a task shows, read off its first version and its sorted stream without folding. */
  ghost predicate MeetsSpec(t: Task, first: Task, s: seq<Event>)
    requires s != []
  {
    && SameOrigin(t, first)
    && FieldsMeetSpec(t, s)
    && t.comments == Map(Filter(s, IsComment), CommentOf)
    && UpdatedAtIsLatest(t, s)
    && t.history == Changes(Writes(s))
    && HistoryOk(t)
  }

  // ---- Fields

  function LastValue(writes: seq<Assignment>, f: Field, initial: Value): Value {
    if writes == [] then initial
    else if writes[|writes| - 1].field == f then writes[|writes| - 1].value
    else LastValue(writes[..|writes| - 1], f, initial)
  }

  lemma {:induction false} LastValueConcat(a: seq<Assignment>, b: seq<Assignment>, f: Field, initial: Value)
    ensures LastValue(a + b, f, initial) == LastValue(b, f, LastValue(a, f, initial))
  {
    if b == [] {
      assert a + b == a;
    } else {
      LastValueConcat(a, b[..|b| - 1], f, initial);
      assert (a + b)[..|a + b| - 1] == a + b[..|b| - 1];
    }
  }

  lemma {:induction false} LastValueHolds(a: seq<Assignment>, f: Field, initial: Value)
    ensures HoldsLatest(a, f, initial, LastValue(a, f, initial))
  {
    if a != [] {
      var n := |a| - 1;
      var v := LastValue(a, f, initial);
      if a[n].field == f {
        assert a[n] == Assignment(f, v);
      } else {
        LastValueHolds(a[..n], f, initial);
        if j :| 0 <= j < n && a[..n][j] == Assignment(f, v) && forall k :: j < k < n ==> a[..n][k].field != f {
          assert a[j] == Assignment(f, v);
          forall k | j < k < |a| ensures a[k].field != f {
            if k < n { assert a[..n][k] == a[k]; }
          }
        } else {
          forall k | 0 <= k < |a| ensures a[k].field != f {
            if k < n { assert a[..n][k] == a[k]; }
          }
        }
      }
    }
  }

  lemma {:induction false} ApplyFieldsValue(t: Task, fields: seq<Assignment>, e: Event, f: Field)
    requires !f.Other?
    ensures FieldOf(ApplyFields(t, fields, e), f) == LastValue(fields, f, FieldOf(t, f))
  {
    if fields != [] {
      ApplyFieldsValue(t, fields[..|fields| - 1], e, f);
    }
  }

  lemma {:induction false} AbsorbAllValue(t: Task, s: seq<Event>, f: Field)
    requires !f.Other?
    ensures FieldOf(AbsorbAll(t, s), f) == LastValue(Assignments(s), f, FieldOf(t, f))
  {
    if s != [] {
      var front, e := s[..|s| - 1], s[|s| - 1];
      AbsorbAllValue(t, front, f);
      AbsorbValue(AbsorbAll(t, front), e, f);
      LastValueConcat(Assignments(front), e.fields, f, FieldOf(t, f));
    }
  }

  lemma AbsorbValue(t: Task, e: Event, f: Field)
    requires !f.Other?
    ensures FieldOf(Absorb(t, e), f) == LastValue(e.fields, f, FieldOf(t, f))
  {
    ApplyFieldsValue(t, e.fields, e, f);
  }

  // ---- Comments, origin, update time

  lemma {:induction false} ApplyFieldsFrame(t: Task, fields: seq<Assignment>, e: Event)
    ensures var u := ApplyFields(t, fields, e);
            SameOrigin(u, t) && u.comments == t.comments && u.updatedAt == t.updatedAt
  {
    if fields != [] {
      ApplyFieldsFrame(t, fields[..|fields| - 1], e);
    }
  }

  lemma AbsorbFrame(t: Task, e: Event)
    ensures SameOrigin(Absorb(t, e), t)
    ensures Absorb(t, e).comments == t.comments + (if IsComment(e) then [CommentOf(e)] else [])
    ensures Absorb(t, e).updatedAt == if Le(e.timestamp, t.updatedAt) then t.updatedAt else e.timestamp
  {
    ApplyFieldsFrame(t, e.fields, e);
  }

  lemma AbsorbAllSnoc(t: Task, s: seq<Event>)
    requires s != []
    ensures AbsorbAll(t, s) == Absorb(AbsorbAll(t, s[..|s| - 1]), s[|s| - 1])
  {
  }

  lemma {:induction false} OriginStays(t: Task, s: seq<Event>)
    ensures SameOrigin(AbsorbAll(t, s), t)
  {
    if s != [] {
      OriginStays(t, s[..|s| - 1]);
      AbsorbFrame(AbsorbAll(t, s[..|s| - 1]), s[|s| - 1]);
    }
  }

  ghost predicate CommentsAre(comments: seq<Comment>, first: seq<Comment>, s: seq<Event>) {
    comments == first + Map(Filter(s, IsComment), CommentOf)
  }

  lemma CommentsStep(first: seq<Comment>, before: Task, front: seq<Event>, e: Event)
    requires CommentsAre(before.comments, first, front)
    ensures CommentsAre(Absorb(before, e).comments, first, front + [e])
  {
    AbsorbFrame(before, e);
    MapFilterSnoc(front, e, IsComment, CommentOf);
  }

  lemma {:induction false} CommentsInOrder(t: Task, s: seq<Event>)
    ensures CommentsAre(AbsorbAll(t, s).comments, t.comments, s)
  {
    if s == [] {
      assert t.comments + [] == t.comments;
    } else {
      var front, e := s[..|s| - 1], s[|s| - 1];
      assert s == front + [e];
      CommentsInOrder(t, front);
      AbsorbAllSnoc(t, s);
      CommentsStep(t.comments, AbsorbAll(t, front), front, e);
    }
  }

  lemma LatestSnoc(was: string, front: seq<Event>, e: Event)
    requires if front == [] then was == e.timestamp else Latest(was, front)
    ensures Latest(if Le(e.timestamp, was) then was else e.timestamp, front + [e])
  {
    var now := if Le(e.timestamp, was) then was else e.timestamp;
    LeTotal(e.timestamp, was);
    LeTotal(now, now);
    forall x | x in front ensures Le(x.timestamp, now) {
      LeTransitive(x.timestamp, was, now);
    }
    assert e in front + [e];
    if front != [] {
      var w :| w in front && w.timestamp == was;
      assert w in front + [e];
    }
  }

  lemma {:induction false} UpdatedAtIsMaximum(t: Task, s: seq<Event>)
    requires s != [] && s[0].timestamp == t.updatedAt
    ensures UpdatedAtIsLatest(AbsorbAll(t, s), s)
  {
    var front, e := s[..|s| - 1], s[|s| - 1];
    assert s == front + [e];
    AbsorbFrame(AbsorbAll(t, front), e);
    if front != [] {
      UpdatedAtIsMaximum(t, front);
    }
    LatestSnoc(AbsorbAll(t, front).updatedAt, front, e);
  }

  lemma {:induction false} ChainedSnoc(initial: Value, changes: seq<Change>, c: Change)
    requires Chained(initial, changes, c.before) && c.before != c.after
    ensures Chained(initial, changes + [c], c.after)
    decreases |changes|
  {
    if changes == [] {
      assert (changes + [c])[1..] == [];
    } else {
      ChainedSnoc(changes[0].after, changes[1..], c);
      assert (changes + [c])[1..] == changes[1..] + [c];
    }
  }

  lemma ApplyFieldKeepsHistory(t: Task, a: Assignment, e: Event)
    requires HistoryOk(t)
    ensures HistoryOk(ApplyField(t, a, e))
  {
    var u := ApplyField(t, a, e);
    if IsTracked(a.field) && FieldOf(t, a.field) != a.value {
      var c := Change(e.timestamp, e.actorId, a.field, FieldOf(t, a.field), a.value);
      forall f: Field | IsTracked(f)
        ensures Chained(DefaultOf(f, []), Filter(u.history, OnField(f)), FieldOf(u, f))
      {
        FilterConcat(t.history, [c], OnField(f));
        if f == a.field {
          assert Filter(u.history, OnField(f)) == Filter(t.history, OnField(f)) + [c];
          ChainedSnoc(DefaultOf(f, []), Filter(t.history, OnField(f)), c);
        } else {
          assert Filter(u.history, OnField(f)) == Filter(t.history, OnField(f));
        }
      }
    }
  }

  lemma {:induction false} ApplyFieldsKeepHistory(t: Task, fields: seq<Assignment>, e: Event)
    requires HistoryOk(t)
    ensures HistoryOk(ApplyFields(t, fields, e))
  {
    if fields != [] {
      var n := |fields| - 1;
      ApplyFieldsKeepHistory(t, fields[..n], e);
      ApplyFieldKeepsHistory(ApplyFields(t, fields[..n], e), fields[n], e);
    }
  }

  lemma AbsorbKeepsHistory(t: Task, e: Event)
    requires HistoryOk(t)
    ensures HistoryOk(Absorb(t, e))
  {
    var u := ApplyFields(t, e.fields, e);
    ApplyFieldsKeepHistory(t, e.fields, e);
    assert Absorb(t, e).history == u.history && Absorb(t, e).fields == u.fields;
    forall f: Field | IsTracked(f) ensures FieldOf(Absorb(t, e), f) == FieldOf(u, f) {}
  }

  lemma {:induction false} HistoryIsChained(t: Task, s: seq<Event>)
    requires HistoryOk(t)
    ensures HistoryOk(AbsorbAll(t, s))
  {
    if s != [] {
      var n := |s| - 1;
      HistoryIsChained(t, s[..n]);
      AbsorbKeepsHistory(AbsorbAll(t, s[..n]), s[n]);
    }
  }

  /** After these writes the task holds their values and their history. */
  ghost predicate Wrote(t: Task, ws: seq<Write>) {
    && t.history == Changes(ws)
    && (forall f: Field :: IsTracked(f) ==> FieldOf(t, f) == Written(ws, f))
  }

  lemma WriteSnoc(ws: seq<Write>, w: Write)
    ensures forall f :: Written(ws + [w], f) == if w.field == f then w.value else Written(ws, f)
    ensures Changes(ws + [w]) == Changes(ws) +
              if IsTracked(w.field) && Written(ws, w.field) != w.value
              then [Change(w.event.timestamp, w.event.actorId, w.field, Written(ws, w.field), w.value)] else []
  {
    assert (ws + [w])[..|ws|] == ws;
  }

  lemma ApplyFieldWrites(t: Task, ws: seq<Write>, a: Assignment, e: Event)
    requires Wrote(t, ws)
    ensures Wrote(ApplyField(t, a, e), ws + [Write(e, a.field, a.value)])
  {
    WriteSnoc(ws, Write(e, a.field, a.value));
    var u := ApplyField(t, a, e);
    forall f: Field | IsTracked(f)
      ensures FieldOf(u, f) == if a.field == f then a.value else FieldOf(t, f)
    {
    }
  }

  lemma {:induction false} ApplyFieldsWrite(t: Task, ws: seq<Write>, fields: seq<Assignment>, e: Event)
    requires Wrote(t, ws)
    ensures Wrote(ApplyFields(t, fields, e), ws + WritesOf(e, fields))
  {
    if fields == [] {
      assert ws + [] == ws;
    } else {
      var n := |fields| - 1;
      ApplyFieldsWrite(t, ws, fields[..n], e);
      ApplyFieldWrites(ApplyFields(t, fields[..n], e), ws + WritesOf(e, fields[..n]), fields[n], e);
      assert ws + WritesOf(e, fields) == (ws + WritesOf(e, fields[..n])) + [Write(e, fields[n].field, fields[n].value)];
    }
  }

  lemma AbsorbWrites(t: Task, ws: seq<Write>, e: Event)
    requires Wrote(t, ws)
    ensures Wrote(Absorb(t, e), ws + WritesOf(e, e.fields))
  {
    var u := ApplyFields(t, e.fields, e);
    ApplyFieldsWrite(t, ws, e.fields, e);
    assert Absorb(t, e).history == u.history && Absorb(t, e).fields == u.fields;
    forall f: Field | IsTracked(f) ensures FieldOf(Absorb(t, e), f) == FieldOf(u, f) {}
  }

  lemma {:induction false} AbsorbAllWrites(t: Task, s: seq<Event>)
    requires Wrote(t, [])
    ensures Wrote(AbsorbAll(t, s), Writes(s))
  {
    if s != [] {
      AbsorbAllWrites(t, s[..|s| - 1]);
      AbsorbAllSnoc(t, s);
      AbsorbWrites(AbsorbAll(t, s[..|s| - 1]), Writes(s[..|s| - 1]), s[|s| - 1]);
    }
  }

  /** What `_new_task` starts a task with. */
  ghost predicate StartsFrom(t: Task, e: Event) {
    && t.taskRef == e.taskRef && t.companyId == e.companyId && t.repositoryId == e.repositoryId
    && t.authorId == e.actorId && t.authorDisplay == e.actorDisplay && t.createdAt == e.timestamp
    && t.updatedAt == e.timestamp && t.comments == [] && t.history == []
    && forall f: Field :: f in SETTABLE ==> FieldOf(t, f) == DefaultOf(f, e.repositories)
  }

  lemma NewTaskStart(e: Event)
    requires NewTask(e).Some?
    ensures StartsFrom(NewTask(e).value, e)
  {
  }

  lemma FieldsHold(t: Task, s: seq<Event>)
    requires s != [] && StartsFrom(t, s[0])
    ensures FieldsMeetSpec(AbsorbAll(t, s), s)
  {
    forall f: Field | f in SETTABLE
      ensures HoldsLatest(Assignments(s), f, DefaultOf(f, s[0].repositories), FieldOf(AbsorbAll(t, s), f))
    {
      AbsorbAllValue(t, s, f);
      LastValueHolds(Assignments(s), f, FieldOf(t, f));
    }
  }

  lemma HistoryHolds(t: Task, s: seq<Event>)
    requires s != [] && StartsFrom(t, s[0])
    ensures HistoryOk(AbsorbAll(t, s)) && AbsorbAll(t, s).history == Changes(Writes(s))
  {
    forall f: Field | IsTracked(f) ensures FieldOf(t, f) == DefaultOf(f, []) {
      assert f in SETTABLE;
    }
    HistoryIsChained(t, s);
    AbsorbAllWrites(t, s);
  }

  lemma AbsorbAllMeetsSpec(t: Task, s: seq<Event>)
    requires s != [] && StartsFrom(t, s[0])
    ensures MeetsSpec(AbsorbAll(t, s), t, s)
  {
    OriginStays(t, s);
    CommentsInOrder(t, s);
    assert UpdatedAtIsLatest(AbsorbAll(t, s), s) by { UpdatedAtIsMaximum(t, s); }
    HistoryHolds(t, s);
    assert FieldsMeetSpec(AbsorbAll(t, s), s) by { FieldsHold(t, s); }
  }

  /** Every materialised task is what the declarative specification says of its sorted stream. */
  lemma MaterializedMeetsSpec(events: seq<Event>, r: string)
    requires Materialized(events).Some? && r in Materialized(events).value
    ensures var s := TaskStream(events, r);
            && s != [] && NewTask(s[0]).Some? && StartsFrom(NewTask(s[0]).value, s[0])
            && MeetsSpec(Materialized(events).value[r], NewTask(s[0]).value, s)
  {
    var s := TaskStream(events, r);
    MaterializedTask(events, r);
    NewTaskStart(s[0]);
    AbsorbAllMeetsSpec(NewTask(s[0]).value, s);
  }
}
