/** What `make_event` guarantees about the events the CLI records (src/canon_systems/tasks.py). */
module TaskMaking {
  import opened Text
  import opened Sorting
  import opened Folds
  import opened TaskEvents
  import opened TaskHistory

  predicate LowerCase(s: string) {
    forall i :: 0 <= i < |s| ==> LowerChar(s[i]) == s[i] && s[i] != '-'
  }

  lemma {:induction false} LowerKeeps(s: string)
    requires LowerCase(s)
    ensures Lower(s) == s && DashToUnderscore(s) == s
  {
    if s != "" {
      LowerKeeps(s[1..]);
      assert s == [s[0]] + s[1..];
    }
  }

  /** Scope names survive their own normalisation. */
  lemma ScopeNameNormalizes(sc: Scope)
    ensures NormalizeScope(ScopeName(sc)) == Some(sc)
  {
    ScopeNameIsPlain(sc);
    PlainNormalizes(ScopeName(sc));
  }

  lemma ScopeNameIsPlain(sc: Scope)
    ensures Stripped(ScopeName(sc)) && LowerCase(ScopeName(sc)) && ScopeNamed(ScopeName(sc)) == Some(sc)
  {
    assert |"repo"| == 4 && |"company"| == 7 && |"multi_repo"| == 10 && |"multirepo"| == 9 && |"multi"| == 5;
  }

  lemma PlainNormalizes(s: string)
    requires Stripped(s) && LowerCase(s)
    ensures NormalizeScope(s) == ScopeNamed(s)
  {
    StripIdempotent(s);
    LowerKeeps(s);
  }

  /** A recorded event is valid, names a scope exactly when it creates, and starts a task without raising. */
  lemma MadeEventLaws(eventType: EventType, eventId: string, taskRef: string, timestamp: string,
                      actorId: string, actorDisplay: string, companyId: string, scope: string,
                      repositoryId: string, repositories: seq<string>, fields: seq<Assignment>, comment: string)
    ensures var r := MakeEvent(eventType, eventId, taskRef, timestamp, actorId, actorDisplay, companyId, scope,
                               repositoryId, repositories, fields, comment);
            r.Some? ==>
              && IsValid(r.value) && (r.value.scope.Some? <==> eventType.Created?)
              && NewTask(r.value).Some?
              && r.value.eventId == Strip(eventId) && Stripped(r.value.eventId)
  {
    var r := MakeEvent(eventType, eventId, taskRef, timestamp, actorId, actorDisplay, companyId, scope,
                       repositoryId, repositories, fields, comment);
    if r.Some? {
      StripIdempotent(eventId);
      CompanyScope();
      ScopeUsable(r.value);
    }
  }

  lemma CompanyScope()
    ensures NormalizeScope("company") == Some(Company)
  {
    ScopeNameNormalizes(Company);
  }

  lemma ScopeUsable(e: Event)
    requires IsValid(e) && (e.scope.Some? <==> e.eventType.Created?)
    ensures NewTask(e).Some?
  {
    CompanyScope();
  }

  /** A ledger whose valid events all come from `make_event` never makes `materialize` raise. */
  lemma RecordedLedgersMaterialize(events: seq<Event>)
    requires forall e :: e in events && IsValid(e) ==> (e.scope.Some? <==> e.eventType.Created?)
    ensures Materialized(events).Some?
  {
    MaterializeRaisesIff(events);
    if r :| TaskStream(events, r) != [] && NewTask(TaskStream(events, r)[0]).None? {
      TaskStreamContents(events, r);
      var e := TaskStream(events, r)[0];
      assert e in TaskStream(events, r);
      ScopeUsable(e);
    }
  }

  /** And only a stray scope on an update or comment does: such an event, alone, raises. */
  lemma StrayScopeRaises(e: Event)
    requires IsValid(e) && !e.eventType.Created? && e.scope.Some? && NormalizeScope(e.scope.value).None?
    ensures Materialized([e]).None?
  {
    assert [e][1..] == [];
    assert SortBy([e], EventKey) == [e];
    assert ValidInOrder([e]) == [e];
    WithKeySnoc(RefOf, e.taskRef, [], e);
    assert [] + [e] == [e];
    assert TaskStream([e], e.taskRef) == [e];
    assert NewTask(e).None?;
    MaterializeRaisesIff([e]);
  }

  /** Fields kept by normalisation are settable, and a status or priority among them is one of the known ones. */
  lemma {:induction false} NormalizedFieldsKnown(fields: seq<Assignment>, i: nat)
    requires NormalizeFields(fields).Some? && i < |NormalizeFields(fields).value|
    ensures var a := NormalizeFields(fields).value[i];
            && !a.field.Other?
            && (a.field == Status ==> a.value.Scalar? && a.value.text in STATUSES)
            && (a.field == Priority ==> a.value.Scalar? && a.value.text in PRIORITIES)
  {
    var head := NormalizeAssignment(fields[0]);
    var tail := NormalizeFields(fields[1..]);
    NormalizedHeadKnown(fields[0]);
    if head.value.field.Other? {
      NormalizedFieldsKnown(fields[1..], i);
    } else if i > 0 {
      NormalizedFieldsKnown(fields[1..], i - 1);
    }
  }

  lemma NormalizedHeadKnown(a: Assignment)
    requires NormalizeAssignment(a).Some?
    ensures var b := NormalizeAssignment(a).value;
            && b.field == a.field
            && (b.field == Status ==> b.value.Scalar? && b.value.text in STATUSES)
            && (b.field == Priority ==> b.value.Scalar? && b.value.text in PRIORITIES)
  {
    assert "open" in STATUSES by { assert STATUSES[0] == "open"; }
    assert "done" in STATUSES by { assert STATUSES[3] == "done"; }
    assert "normal" in PRIORITIES by { assert PRIORITIES[1] == "normal"; }
  }
}
