/** When ids keep determining events across all machines: exactly when no stamped copy differs from its original. */
module LedgerIdentity {
  import opened LedgerSync

  /** Ids determine events across all ledgers, and the server has nothing that some ledger does not hold. */
  ghost predicate Inv<E(!new)>(idOf: E -> string, w: World<E>) {
    && Sound(idOf, w)
    && (forall e :: Local(w, e) ==> idOf(e) != "")
    && (forall e, f :: Local(w, e) && Local(w, f) && idOf(e) == idOf(f) ==> e == f)
    && (forall e :: e in w.server ==> Local(w, e))
  }

  /** Stamping a copy never changes its id. */
  ghost predicate KeepsIds<E(!new)>(idOf: E -> string, stamp: E -> E) {
    forall e :: idOf(stamp(e)) == idOf(e)
  }

  /** The step accepts no copy that differs from its original. */
  predicate Faithful<E(==)>(stamp: E -> E, a: Action<E>) {
    a.Push? && a.ok ==> stamp(a.e) == a.e
  }

  lemma StartInv<E(!new)>(idOf: E -> string, n: nat)
    ensures Inv(idOf, Start<E>(n))
  {
  }

  lemma FreshMeansNew<E(!new)>(idOf: E -> string, w: World<E>, id: string)
    requires FreshId(idOf, w, id)
    ensures forall e :: Local(w, e) ==> idOf(e) != id
  {
    forall e | Local(w, e) ensures idOf(e) != id {
      if InCompany(w, e) {
        var m :| 0 <= m < |w.ledgers| && e in w.ledgers[m];
        var i :| 0 <= i < |w.ledgers[m]| && w.ledgers[m][i] == e;
      } else {
        var m :| 0 <= m < |w.repos| && e in w.repos[m];
        var i :| 0 <= i < |w.repos[m]| && w.repos[m][i] == e;
      }
    }
  }

  /** What one step adds to the local events: a recorded one, or nothing that was not local or on the server. */
  lemma StepAdds<E(!new)>(idOf: E -> string, stamp: E -> E, w: World<E>, a: Action<E>, x: E)
    requires Sound(idOf, w) && Enabled(idOf, w, a) && Local(Step(idOf, stamp, w, a), x)
    ensures Local(w, x) || (a.Record? && x == a.e) || x in w.server
  {
    var v := Step(idOf, stamp, w, a);
    if InRepo(v, x) {
      var k :| 0 <= k < |v.repos| && x in v.repos[k];
      assert x in w.repos[k] || (a.Record? && x == a.e);
    } else {
      var k :| 0 <= k < |v.ledgers| && x in v.ledgers[k];
      if x !in w.ledgers[k] {
        NewLine(idOf, stamp, w, a, k, x);
      }
    }
  }

  lemma NewLine<E(!new)>(idOf: E -> string, stamp: E -> E, w: World<E>, a: Action<E>, k: nat, x: E)
    requires Sound(idOf, w) && Enabled(idOf, w, a) && k < |w.ledgers|
    requires x in Step(idOf, stamp, w, a).ledgers[k] && x !in w.ledgers[k]
    ensures InCompany(w, x) || (a.Record? && x == a.e) || x in w.server
  {
    match a
    case Merge(m, _) =>
      assert PhaseOk(idOf, w, w.phases[m]);
      MergeGrows(idOf, w.ledgers[m], w.phases[m].remote);
    case Fetch(m, rows) =>
      if rows.Some? {
        MergeGrows(idOf, w.ledgers[m], rows.value);
        var i :| 0 <= i < |rows.value| && rows.value[i] == x;
      }
    case _ =>
  }

  lemma RecordInv<E(!new)>(idOf: E -> string, stamp: E -> E, w: World<E>, a: Action<E>)
    requires Inv(idOf, w) && Enabled(idOf, w, a) && a.Record?
    ensures Inv(idOf, Step(idOf, stamp, w, a))
  {
    var v := Step(idOf, stamp, w, a);
    StepSound(idOf, stamp, w, a);
    KeepsLocal(w, v);
    FreshMeansNew(idOf, w, idOf(a.e));
    forall x | Local(v, x) ensures Local(w, x) || x == a.e {
      StepAdds(idOf, stamp, w, a, x);
    }
  }

  /** The invariant survives a step exactly when the step is faithful. */
  lemma StepInvIff<E(!new)>(idOf: E -> string, stamp: E -> E, w: World<E>, a: Action<E>)
    requires Inv(idOf, w) && Enabled(idOf, w, a) && KeepsIds(idOf, stamp)
    ensures Inv(idOf, Step(idOf, stamp, w, a)) <==> Faithful(stamp, a)
  {
    var v := Step(idOf, stamp, w, a);
    StepSound(idOf, stamp, w, a);
    KeepsLocal(w, v);
    match a
    case Record(_, _, _) => RecordInv(idOf, stamp, w, a);
    case Push(_, e, ok) =>
      SameLedgers(w, v);
      assert InCompany(w, e) || InRepo(w, e);
      assert ok ==> stamp(e) in v.server;
    case _ =>
      forall x | Local(v, x) ensures Local(w, x) {
        StepAdds(idOf, stamp, w, a, x);
      }
  }

  /** Ids still determine events at the end of a run exactly when every accepted copy equals its original. */
  lemma {:induction false} RunInvIff<E(!new)>(idOf: E -> string, stamp: E -> E, w: World<E>, run: seq<Action<E>>)
    requires Inv(idOf, w) && CanRun(idOf, stamp, w, run) && KeepsIds(idOf, stamp)
    ensures Inv(idOf, After(idOf, stamp, w, run)) <==> forall i :: 0 <= i < |run| ==> Faithful(stamp, run[i])
    decreases |run|
  {
    if run != [] {
      var v := Step(idOf, stamp, w, run[0]);
      StepInvIff(idOf, stamp, w, run[0]);
      if Faithful(stamp, run[0]) {
        RunInvIff(idOf, stamp, v, run[1..]);
        assert forall i :: 1 <= i < |run| ==> run[i] == run[1..][i - 1];
      } else {
        StepSound(idOf, stamp, w, run[0]);
        var e := run[0].e;
        assert InCompany(w, e) || InRepo(w, e);
        KeepsLocal(w, v);
        CopyStays(idOf, stamp, v, e, run[1..]);
      }
    }
  }

  /** Once the server holds another record under a local event's id, ids never determine events again. */
  lemma CopyStays<E(!new)>(idOf: E -> string, stamp: E -> E, v: World<E>, e: E, run: seq<Action<E>>)
    requires Sound(idOf, v) && CanRun(idOf, stamp, v, run)
    requires Local(v, e) && stamp(e) in v.server && stamp(e) != e && idOf(stamp(e)) == idOf(e)
    ensures !Inv(idOf, After(idOf, stamp, v, run))
  {
    RunSound(idOf, stamp, v, run);
    KeepsLocal(v, After(idOf, stamp, v, run));
  }

  // ---- In terms of what is recorded --------------------------------------------------------

  predicate RecordsOnly<E>(run: seq<Action<E>>, allowed: E -> bool) {
    forall i :: 0 <= i < |run| && run[i].Record? ==> allowed(run[i].e)
  }

  /** Stamping changes no local event. */
  ghost predicate AllNamed<E(!new)>(stamp: E -> E, w: World<E>) {
    forall e :: Local(w, e) ==> stamp(e) == e
  }

  lemma {:induction false} NamedRunInv<E(!new)>(idOf: E -> string, stamp: E -> E, w: World<E>, run: seq<Action<E>>,
                                                allowed: E -> bool)
    requires Inv(idOf, w) && AllNamed(stamp, w) && KeepsIds(idOf, stamp)
    requires CanRun(idOf, stamp, w, run) && RecordsOnly(run, allowed)
    requires forall e :: allowed(e) && idOf(e) != "" ==> stamp(e) == e
    ensures Inv(idOf, After(idOf, stamp, w, run)) && AllNamed(stamp, After(idOf, stamp, w, run))
    decreases |run|
  {
    if run != [] {
      var v := Step(idOf, stamp, w, run[0]);
      NamedStep(idOf, stamp, w, run[0], allowed);
      assert RecordsOnly(run[1..], allowed);
      NamedRunInv(idOf, stamp, v, run[1..], allowed);
    }
  }

  lemma NamedStep<E(!new)>(idOf: E -> string, stamp: E -> E, w: World<E>, a: Action<E>, allowed: E -> bool)
    requires Inv(idOf, w) && AllNamed(stamp, w) && KeepsIds(idOf, stamp) && Enabled(idOf, w, a)
    requires a.Record? ==> allowed(a.e)
    requires forall e :: allowed(e) && idOf(e) != "" ==> stamp(e) == e
    ensures Inv(idOf, Step(idOf, stamp, w, a)) && AllNamed(stamp, Step(idOf, stamp, w, a))
  {
    var v := Step(idOf, stamp, w, a);
    if a.Push? {
      assert InCompany(w, a.e) || InRepo(w, a.e);
    }
    StepInvIff(idOf, stamp, w, a);
    forall x | Local(v, x) ensures stamp(x) == x {
      StepAdds(idOf, stamp, w, a, x);
    }
  }

  /** Recording and pushing one event. */
  function PushRun<E>(e: E): seq<Action<E>> {
    [Record(0, e, false), Push(0, e, true)]
  }

  lemma PushRunRuns<E(!new)>(idOf: E -> string, stamp: E -> E, n: nat, e: E)
    requires n > 0 && idOf(e) != ""
    ensures CanRun(idOf, stamp, Start(n), PushRun(e))
  {
    var run := PushRun(e);
    var w1 := Step(idOf, stamp, Start(n), run[0]);
    assert w1.ledgers[0] == [e];
    assert run[1..] == [run[1]] && [run[1]][1..] == [];
    assert CanRun(idOf, stamp, Step(idOf, stamp, w1, run[1]), []);
    assert CanRun(idOf, stamp, w1, [run[1]]);
  }

  /** Every run that records only events of a kind keeps ids determining events exactly when stamping changes
      no event of that kind. */
  lemma NamedEventsIff<E(!new)>(idOf: E -> string, stamp: E -> E, n: nat, allowed: E -> bool)
    requires n > 0 && KeepsIds(idOf, stamp)
    ensures (forall e :: allowed(e) && idOf(e) != "" ==> stamp(e) == e) <==>
            (forall run :: CanRun(idOf, stamp, Start(n), run) && RecordsOnly(run, allowed) ==>
               Inv(idOf, After(idOf, stamp, Start(n), run)))
  {
    StartInv<E>(idOf, n);
    if forall e :: allowed(e) && idOf(e) != "" ==> stamp(e) == e {
      forall run | CanRun(idOf, stamp, Start(n), run) && RecordsOnly(run, allowed)
        ensures Inv(idOf, After(idOf, stamp, Start(n), run))
      {
        NamedRunInv(idOf, stamp, Start(n), run, allowed);
      }
    } else {
      var e :| allowed(e) && idOf(e) != "" && stamp(e) != e;
      PushRunRuns(idOf, stamp, n, e);
      RunInvIff(idOf, stamp, Start(n), PushRun(e));
      assert !Faithful(stamp, PushRun(e)[1]);
      assert RecordsOnly(PushRun(e), allowed);
    }
  }
}
