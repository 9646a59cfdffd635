/** What overwriting the shared object loses: exactly when a sync window, or a whole run, keeps everything. */
module LedgerObject {
  import opened Text
  import opened Sorting
  import opened FirstWins
  import opened LedgerSync
  import opened LedgerConvergence

  function ObjectOf<E>(w: World<E>): seq<E> {
    w.shared.GetOr([])
  }

  /** Everything in the object before is in it afterwards. */
  ghost predicate KeepsObject<E(!new)>(w: World<E>, v: World<E>) {
    forall e :: e in ObjectOf(w) ==> e in ObjectOf(v)
  }

  // ---- One sync window -------------------------------------------------------------------

  predicate MovesPhase<E>(a: Action<E>, m: nat) {
    a.m == m && (a.Get? || a.Merge? || a.Put?)
  }

  /** Nothing here belongs to the sync of machine `m`. */
  predicate Between<E>(run: seq<Action<E>>, m: nat) {
    forall i :: 0 <= i < |run| ==> !MovesPhase(run[i], m)
  }

  predicate Overwrites<E>(a: Action<E>) {
    a.Put? && a.ok
  }

  lemma {:induction false} PhaseStays<E(!new)>(idOf: E -> string, stamp: E -> E, w: World<E>, run: seq<Action<E>>,
                                               m: nat)
    requires Sound(idOf, w) && CanRun(idOf, stamp, w, run) && Between(run, m) && m < |w.phases|
    ensures var v := After(idOf, stamp, w, run); |v.phases| == |w.phases| && v.phases[m] == w.phases[m]
    decreases |run|
  {
    if run != [] {
      var v := Step(idOf, stamp, w, run[0]);
      StepSound(idOf, stamp, w, run[0]);
      assert !MovesPhase(run[0], m);
      assert Between(run[1..], m) by {
        assert forall i :: 0 <= i < |run| - 1 ==> run[1..][i] == run[i + 1];
      }
      PhaseStays(idOf, stamp, v, run[1..], m);
    }
  }

  /** Without a successful put the object stays as it is. */
  lemma {:induction false} ObjectStays<E(!new)>(idOf: E -> string, stamp: E -> E, w: World<E>, run: seq<Action<E>>)
    requires CanRun(idOf, stamp, w, run) && forall i :: 0 <= i < |run| ==> !Overwrites(run[i])
    ensures After(idOf, stamp, w, run).shared == w.shared
    decreases |run|
  {
    if run != [] {
      assert !Overwrites(run[0]);
      ObjectStays(idOf, stamp, Step(idOf, stamp, w, run[0]), run[1..]);
    }
  }

  /** A window of machine `m`: its get, other steps, its merge, other steps; the put follows. */
  datatype Window<E> = Window(got: bool, before: seq<Action<E>>, after: seq<Action<E>>)

  /** The worlds at the merge and at the put. */
  ghost predicate Runs<E(!new)>(idOf: E -> string, stamp: E -> E, w: World<E>, m: nat, win: Window<E>,
                               atMerge: World<E>, atPut: World<E>)
  {
    && Enabled(idOf, w, Get(m, win.got)) && Between(win.before, m) && Between(win.after, m)
    && CanRun(idOf, stamp, Step(idOf, stamp, w, Get(m, win.got)), win.before)
    && atMerge == After(idOf, stamp, Step(idOf, stamp, w, Get(m, win.got)), win.before)
    && Enabled(idOf, atMerge, Merge(m, false))
    && CanRun(idOf, stamp, Step(idOf, stamp, atMerge, Merge(m, false)), win.after)
    && atPut == After(idOf, stamp, Step(idOf, stamp, atMerge, Merge(m, false)), win.after)
  }

  /** What a merge takes: the whole ledger, and of the object it read what has a new id. */
  ghost predicate Carried<E>(idOf: E -> string, got: bool, read: seq<E>, own: seq<E>, e: E) {
    Taken(idOf, own, if got then read else [], e)
  }

  /** What the put will write. */
  lemma WindowBody<E(!new)>(idOf: E -> string, stamp: E -> E, w: World<E>, m: nat, win: Window<E>,
                            atMerge: World<E>, atPut: World<E>)
    requires Sound(idOf, w) && Runs(idOf, stamp, w, m, win, atMerge, atPut)
    ensures m < |atMerge.ledgers| && Enabled(idOf, atPut, Put(m, true)) && Tidy(idOf, atMerge.ledgers[m])
    ensures forall e :: e in atPut.phases[m].body <==> Carried(idOf, win.got, ObjectOf(w), atMerge.ledgers[m], e)
  {
    var w1 := Step(idOf, stamp, w, Get(m, win.got));
    StepSound(idOf, stamp, w, Get(m, win.got));
    RunSound(idOf, stamp, w1, win.before);
    PhaseStays(idOf, stamp, w1, win.before, m);
    var w3 := Step(idOf, stamp, atMerge, Merge(m, false));
    StepSound(idOf, stamp, atMerge, Merge(m, false));
    RunSound(idOf, stamp, w3, win.after);
    PhaseStays(idOf, stamp, w3, win.after, m);
    assert PhaseOk(idOf, atMerge, atMerge.phases[m]);
    MergeTakes(idOf, atMerge.ledgers[m], atMerge.phases[m].remote);
  }

  lemma MergeTakes<E(!new)>(idOf: E -> string, own: seq<E>, remote: seq<E>)
    requires Tidy(idOf, own) && Tidy(idOf, remote)
    ensures forall e :: e in Union(idOf, [own, remote]) <==> Taken(idOf, own, remote, e)
  {
    forall e ensures e in Union(idOf, [own, remote]) <==> Taken(idOf, own, remote, e) {
      UnionOfTidy(idOf, own, remote, e);
    }
  }

  /** A window's put keeps the object exactly when each event in it then is one the machine's ledger held at the
      merge, or was in the object at a get that succeeded and met no event with its id in that ledger. */
  lemma PutKeepsIff<E(!new)>(idOf: E -> string, stamp: E -> E, w: World<E>, m: nat, win: Window<E>,
                             atMerge: World<E>, atPut: World<E>)
    requires Sound(idOf, w) && Runs(idOf, stamp, w, m, win, atMerge, atPut)
    ensures m < |atMerge.ledgers| && Enabled(idOf, atPut, Put(m, true))
    ensures KeepsObject(atPut, Step(idOf, stamp, atPut, Put(m, true))) <==>
            forall e :: e in ObjectOf(atPut) ==> Carried(idOf, win.got, ObjectOf(w), atMerge.ledgers[m], e)
  {
    WindowBody(idOf, stamp, w, m, win, atMerge, atPut);
    assert ObjectOf(Step(idOf, stamp, atPut, Put(m, true))) == atPut.phases[m].body;
  }

  /** Where both lists have an id, they have the same event under it. */
  ghost predicate Agree<E(!new)>(idOf: E -> string, own: seq<E>, es: seq<E>) {
    forall e, f :: e in own && f in es && idOf(e) == idOf(f) ==> e == f
  }

  lemma AgreeIff<E(!new)>(idOf: E -> string, own: seq<E>, es: seq<E>)
    requires Tidy(idOf, own)
    ensures Agree(idOf, own, es) <==> forall e :: e in es ==> Taken(idOf, own, es, e)
  {
    if forall e :: e in es ==> Taken(idOf, own, es, e) {
      forall e, f | e in own && f in es && idOf(e) == idOf(f) ensures e == f {
        assert Taken(idOf, own, es, f);
      }
    }
  }

  /** When nobody else overwrites the object inside the window: the get succeeded and no event of the object clashed
      with the ledger, or the get failed and the machine had everything anyway. */
  lemma UndisturbedPutKeepsIff<E(!new)>(idOf: E -> string, stamp: E -> E, w: World<E>, m: nat, win: Window<E>,
                                        atMerge: World<E>, atPut: World<E>)
    requires Sound(idOf, w) && Runs(idOf, stamp, w, m, win, atMerge, atPut)
    requires forall i :: 0 <= i < |win.before| ==> !Overwrites(win.before[i])
    requires forall i :: 0 <= i < |win.after| ==> !Overwrites(win.after[i])
    ensures m < |atMerge.ledgers| && Enabled(idOf, atPut, Put(m, true))
    ensures KeepsObject(atPut, Step(idOf, stamp, atPut, Put(m, true))) <==>
            if win.got then Agree(idOf, atMerge.ledgers[m], ObjectOf(w))
            else forall e :: e in ObjectOf(w) ==> e in atMerge.ledgers[m]
  {
    PutKeepsIff(idOf, stamp, w, m, win, atMerge, atPut);
    WindowBody(idOf, stamp, w, m, win, atMerge, atPut);
    ObjectStays(idOf, stamp, Step(idOf, stamp, w, Get(m, win.got)), win.before);
    ObjectStays(idOf, stamp, Step(idOf, stamp, atMerge, Merge(m, false)), win.after);
    assert ObjectOf(atPut) == ObjectOf(w);
    AgreeIff(idOf, atMerge.ledgers[m], ObjectOf(w));
  }

  // ---- Whole runs ---------------------------------------------------------------------------

  /** Of a machine's latest sync: whether the get succeeded, the object it could read then, and the ledger at the
      merge. */
  datatype Note<E> = Note(got: bool, read: seq<E>, own: seq<E>)

  function Noted<E>(w: World<E>, notes: seq<Note<E>>, a: Action<E>): (r: seq<Note<E>>)
    requires a.m < |notes| == |w.ledgers|
    ensures |r| == |notes|
  {
    match a
    case Get(m, ok) => notes[m := Note(ok, ObjectOf(w), [])]
    case Merge(m, _) => notes[m := notes[m].(own := w.ledgers[m])]
    case _ => notes
  }

  function NoNotes<E>(n: nat): seq<Note<E>> {
    seq(n, _ => Note(false, [], []))
  }

  ghost predicate NoteHolds<E(!new)>(idOf: E -> string, p: Phase<E>, note: Note<E>) {
    match p
    case Idle => true
    case Fetched(remote) => remote == if note.got then note.read else []
    case Putting(body) =>
      && Tidy(idOf, note.own)
      && forall e :: e in body <==> Carried(idOf, note.got, note.read, note.own, e)
  }

  ghost predicate NotesHold<E(!new)>(idOf: E -> string, w: World<E>, notes: seq<Note<E>>) {
    |notes| == |w.ledgers| == |w.phases| && forall m :: 0 <= m < |notes| ==> NoteHolds(idOf, w.phases[m], notes[m])
  }

  lemma NotesStep<E(!new)>(idOf: E -> string, stamp: E -> E, w: World<E>, notes: seq<Note<E>>, a: Action<E>)
    requires Sound(idOf, w) && NotesHold(idOf, w, notes) && Enabled(idOf, w, a)
    ensures NotesHold(idOf, Step(idOf, stamp, w, a), Noted(w, notes, a))
  {
    if a.Merge? {
      assert PhaseOk(idOf, w, w.phases[a.m]) && NoteHolds(idOf, w.phases[a.m], notes[a.m]);
      MergeTakes(idOf, w.ledgers[a.m], w.phases[a.m].remote);
    }
  }

  /** The object never loses an event along the run. */
  ghost predicate OnlyGrows<E(!new)>(idOf: E -> string, stamp: E -> E, w: World<E>, run: seq<Action<E>>)
    requires CanRun(idOf, stamp, w, run)
    decreases |run|
  {
    run == [] ||
    (KeepsObject(w, Step(idOf, stamp, w, run[0])) && OnlyGrows(idOf, stamp, Step(idOf, stamp, w, run[0]), run[1..]))
  }

  /** Each event in the object at a put that goes through was in the machine's ledger at its merge, or was read there
      by a get that succeeded and met no event with its id in that ledger. */
  ghost predicate PutsCarry<E(!new)>(idOf: E -> string, stamp: E -> E, w: World<E>, notes: seq<Note<E>>,
                                     run: seq<Action<E>>)
    requires CanRun(idOf, stamp, w, run) && |notes| == |w.ledgers|
    decreases |run|
  {
    run == [] ||
    ((Overwrites(run[0]) ==> var n := notes[run[0].m];
        forall e :: e in ObjectOf(w) ==> Carried(idOf, n.got, n.read, n.own, e)) &&
     PutsCarry(idOf, stamp, Step(idOf, stamp, w, run[0]), Noted(w, notes, run[0]), run[1..]))
  }

  lemma {:induction false} NotedRunGrowsIff<E(!new)>(idOf: E -> string, stamp: E -> E, w: World<E>,
                                                     notes: seq<Note<E>>, run: seq<Action<E>>)
    requires Sound(idOf, w) && NotesHold(idOf, w, notes) && CanRun(idOf, stamp, w, run)
    ensures OnlyGrows(idOf, stamp, w, run) <==> PutsCarry(idOf, stamp, w, notes, run)
    decreases |run|
  {
    if run != [] {
      StepSound(idOf, stamp, w, run[0]);
      NotesStep(idOf, stamp, w, notes, run[0]);
      NotedRunGrowsIff(idOf, stamp, Step(idOf, stamp, w, run[0]), Noted(w, notes, run[0]), run[1..]);
      PutKeepsCarried(idOf, stamp, w, notes, run[0]);
    }
  }

  lemma PutKeepsCarried<E(!new)>(idOf: E -> string, stamp: E -> E, w: World<E>, notes: seq<Note<E>>, a: Action<E>)
    requires NotesHold(idOf, w, notes) && Enabled(idOf, w, a)
    ensures !Overwrites(a) ==> KeepsObject(w, Step(idOf, stamp, w, a))
    ensures Overwrites(a) ==> var n := notes[a.m];
              KeepsObject(w, Step(idOf, stamp, w, a)) <==>
              forall e :: e in ObjectOf(w) ==> Carried(idOf, n.got, n.read, n.own, e)
  {
    if Overwrites(a) {
      assert NoteHolds(idOf, w.phases[a.m], notes[a.m]);
    } else {
      assert Step(idOf, stamp, w, a).shared == w.shared;
    }
  }

  /** Over any run from a quiet world the object only grows exactly when every put carries what it overwrites. */
  lemma OnlyGrowsIff<E(!new)>(idOf: E -> string, stamp: E -> E, w: World<E>, run: seq<Action<E>>)
    requires Sound(idOf, w) && Quiet(w) && CanRun(idOf, stamp, w, run)
    ensures OnlyGrows(idOf, stamp, w, run) <==> PutsCarry(idOf, stamp, w, NoNotes(|w.ledgers|), run)
  {
    NotedRunGrowsIff(idOf, stamp, w, NoNotes(|w.ledgers|), run);
  }

  // ---- Runs whose windows do not overlap ------------------------------------------------------

  /** No machine begins a sync inside another's, and gets succeed. */
  ghost predicate OneAtATime<E>(idOf: E -> string, stamp: E -> E, w: World<E>, run: seq<Action<E>>)
    requires CanRun(idOf, stamp, w, run)
    decreases |run|
  {
    run == [] ||
    ((run[0].Get? ==> run[0].ok && Quiet(w)) && OneAtATime(idOf, stamp, Step(idOf, stamp, w, run[0]), run[1..]))
  }

  /** At most one machine is inside a sync, and it has read the object as it still is. */
  ghost predicate Serial<E(!new)>(w: World<E>, notes: seq<Note<E>>) {
    && |notes| == |w.ledgers| == |w.phases|
    && (forall m, k :: 0 <= m < k < |w.phases| ==> w.phases[m].Idle? || w.phases[k].Idle?)
    && (forall m :: 0 <= m < |w.phases| && !w.phases[m].Idle? ==> notes[m].got && notes[m].read == ObjectOf(w))
  }

  lemma SerialStep<E(!new)>(idOf: E -> string, stamp: E -> E, w: World<E>, notes: seq<Note<E>>, a: Action<E>)
    requires Serial(w, notes) && Enabled(idOf, w, a) && (a.Get? ==> a.ok && Quiet(w))
    ensures Serial(Step(idOf, stamp, w, a), Noted(w, notes, a))
  {
  }

  /** At each put that goes through, the object agrees with the machine's ledger at its merge. */
  ghost predicate PutsAgree<E(!new)>(idOf: E -> string, stamp: E -> E, w: World<E>, notes: seq<Note<E>>,
                                     run: seq<Action<E>>)
    requires CanRun(idOf, stamp, w, run) && |notes| == |w.ledgers|
    decreases |run|
  {
    run == [] ||
    ((Overwrites(run[0]) ==> Agree(idOf, notes[run[0].m].own, ObjectOf(w))) &&
     PutsAgree(idOf, stamp, Step(idOf, stamp, w, run[0]), Noted(w, notes, run[0]), run[1..]))
  }

  lemma {:induction false} SerialCarryIff<E(!new)>(idOf: E -> string, stamp: E -> E, w: World<E>,
                                                   notes: seq<Note<E>>, run: seq<Action<E>>)
    requires Sound(idOf, w) && NotesHold(idOf, w, notes) && Serial(w, notes)
    requires CanRun(idOf, stamp, w, run) && OneAtATime(idOf, stamp, w, run)
    ensures PutsCarry(idOf, stamp, w, notes, run) <==> PutsAgree(idOf, stamp, w, notes, run)
    decreases |run|
  {
    if run != [] {
      var a := run[0];
      StepSound(idOf, stamp, w, a);
      NotesStep(idOf, stamp, w, notes, a);
      SerialStep(idOf, stamp, w, notes, a);
      SerialCarryIff(idOf, stamp, Step(idOf, stamp, w, a), Noted(w, notes, a), run[1..]);
      if Overwrites(a) {
        assert NoteHolds(idOf, w.phases[a.m], notes[a.m]);
        AgreeIff(idOf, notes[a.m].own, ObjectOf(w));
      }
    }
  }

  /** Over a run from a quiet world whose sync windows do not overlap and whose gets succeed, the object only grows
      exactly when no put meets an event whose id the machine's ledger held for another one. */
  lemma SerialRunGrowsIff<E(!new)>(idOf: E -> string, stamp: E -> E, w: World<E>, run: seq<Action<E>>)
    requires Sound(idOf, w) && Quiet(w) && CanRun(idOf, stamp, w, run) && OneAtATime(idOf, stamp, w, run)
    ensures OnlyGrows(idOf, stamp, w, run) <==> PutsAgree(idOf, stamp, w, NoNotes(|w.ledgers|), run)
  {
    OnlyGrowsIff(idOf, stamp, w, run);
    SerialCarryIff(idOf, stamp, w, NoNotes(|w.ledgers|), run);
  }

  // ---- Runs that tell company events apart ----------------------------------------------------

  lemma ToldBefore<E(!new)>(idOf: E -> string, w: World<E>, v: World<E>)
    requires Keeps(w, v) && CompanyTold(idOf, v)
    ensures CompanyTold(idOf, w)
  {
    KeepsLocal(w, v);
  }

  ghost predicate OwnIsCompany<E(!new)>(w: World<E>, notes: seq<Note<E>>) {
    forall m :: 0 <= m < |notes| ==> OnlyCompany(w, notes[m].own)
  }

  lemma OwnStaysCompany<E(!new)>(idOf: E -> string, stamp: E -> E, w: World<E>, notes: seq<Note<E>>, a: Action<E>)
    requires Sound(idOf, w) && |notes| == |w.ledgers| && OwnIsCompany(w, notes) && Enabled(idOf, w, a)
    ensures OwnIsCompany(Step(idOf, stamp, w, a), Noted(w, notes, a))
  {
    var v := Step(idOf, stamp, w, a);
    StepSound(idOf, stamp, w, a);
    KeepsLocal(w, v);
    if a.Merge? {
      forall e | e in w.ledgers[a.m] ensures InCompany(v, e) {
        assert e in v.ledgers[a.m];
      }
    }
  }

  lemma {:induction false} ToldPutsAgree<E(!new)>(idOf: E -> string, stamp: E -> E, w: World<E>,
                                                  notes: seq<Note<E>>, run: seq<Action<E>>)
    requires Sound(idOf, w) && |notes| == |w.ledgers| && OwnIsCompany(w, notes) && CanRun(idOf, stamp, w, run)
    requires CompanyTold(idOf, After(idOf, stamp, w, run))
    ensures PutsAgree(idOf, stamp, w, notes, run)
    decreases |run|
  {
    if run != [] {
      RunSound(idOf, stamp, w, run);
      ToldBefore(idOf, w, After(idOf, stamp, w, run));
      StepSound(idOf, stamp, w, run[0]);
      OwnStaysCompany(idOf, stamp, w, notes, run[0]);
      ToldPutsAgree(idOf, stamp, Step(idOf, stamp, w, run[0]), Noted(w, notes, run[0]), run[1..]);
    }
  }

  /** So it does grow over such a run if ids tell the events of all company ledgers apart in the end. */
  lemma SerialRunOnlyGrows<E(!new)>(idOf: E -> string, stamp: E -> E, w: World<E>, run: seq<Action<E>>)
    requires Sound(idOf, w) && Quiet(w) && CanRun(idOf, stamp, w, run) && OneAtATime(idOf, stamp, w, run)
    requires CompanyTold(idOf, After(idOf, stamp, w, run))
    ensures OnlyGrows(idOf, stamp, w, run)
  {
    ToldPutsAgree(idOf, stamp, w, NoNotes(|w.ledgers|), run);
    SerialRunGrowsIff(idOf, stamp, w, run);
  }

  // ---- The three ways to lose an event -------------------------------------------------------

  /** Two machines with one event each. */
  function Pair<E>(e: E, f: E, shared: Option<seq<E>>, p: Phase<E>, q: Phase<E>): World<E> {
    World([[e], [f]], [[], []], shared, [], [p, q])
  }

  lemma PairSound<E(!new)>(idOf: E -> string, e: E, f: E, shared: Option<seq<E>>)
    requires idOf(e) != "" && idOf(f) != "" && idOf(e) != idOf(f) && (shared.None? || shared == Some([e]))
    ensures var w := Pair(e, f, shared, Idle, Idle); Settled(idOf, w) && Quiet(w)
  {
    var w: World<E> := Pair(e, f, shared, Idle, Idle);
    assert e in w.ledgers[0] && InCompany(w, e);
  }

  /** A get that fails reads as empty, so the put that follows erases what only other machines hold. */
  lemma FailedGetDropsAnEvent<E(!new)>(idOf: E -> string, stamp: E -> E, e: E, f: E)
    requires idOf(e) != "" && idOf(f) != "" && idOf(e) != idOf(f)
    ensures var w := Pair(e, f, Some([e]), Idle, Idle);
            var run := [Get(1, false), Merge(1, false), Put(1, true)];
            && Settled(idOf, w) && CanRun(idOf, stamp, w, run)
            && After(idOf, stamp, w, run) == Pair(e, f, Some([f]), Idle, Idle)
  {
    PairSound(idOf, e, f, Some([e]));
    UnionOfFirst(idOf, f);
    var run: seq<Action<E>> := [Get(1, false), Merge(1, false), Put(1, true)];
    var w, w1 := Pair(e, f, Some([e]), Idle, Idle), Pair(e, f, Some([e]), Idle, Fetched([]));
    var w2, w3 := Pair(e, f, Some([e]), Idle, Putting([f])), Pair(e, f, Some([f]), Idle, Idle);
    assert Step(idOf, stamp, w2, run[2]) == w3;
    RunOne(idOf, stamp, w2, run, 2);
    assert Step(idOf, stamp, w1, run[1]) == w2;
    RunOne(idOf, stamp, w1, run, 1);
    assert Step(idOf, stamp, w, run[0]) == w1;
    RunOne(idOf, stamp, w, run, 0);
    assert run[0..] == run;
  }

  /** A clash erases an event although every get succeeds and nobody else writes: the ledger has another event under
      its id, and the union keeps that one. */
  lemma ClashDropsAnEvent<E(!new)>(idOf: E -> string, stamp: E -> E, e: E, f: E, server: seq<E>)
    requires idOf(e) == idOf(f) != "" && e != f
    ensures var w := World([[e], [f]], [[], []], Some([e]), server, [Idle, Idle]);
            && Sound(idOf, w) && Quiet(w) && CanRun(idOf, stamp, w, FullSync(1))
            && OneAtATime(idOf, stamp, w, FullSync(1))
            && After(idOf, stamp, w, FullSync(1)) == w.(shared := Some([f]))
  {
    var w := World([[e], [f]], [[], []], Some([e]), server, [Idle, Idle]);
    assert e in w.ledgers[0] && InCompany(w, e);
    FullSyncEffect(idOf, stamp, w, 1);
    UnionOfClash(idOf, f, e);
    assert w.ledgers[1 := [f]] == w.ledgers;
    FullSyncSerial(idOf, stamp, w, 1);
  }

  lemma FullSyncSerial<E(!new)>(idOf: E -> string, stamp: E -> E, w: World<E>, m: nat)
    requires Quiet(w) && CanRun(idOf, stamp, w, FullSync(m))
    ensures OneAtATime(idOf, stamp, w, FullSync(m))
  {
    var run: seq<Action<E>> := FullSync(m);
    var w1 := Step(idOf, stamp, w, run[0]);
    assert run[1..][0] == run[1] && run[1..][1..] == [run[2]] && [run[2]][1..] == [];
    assert OneAtATime(idOf, stamp, Step(idOf, stamp, Step(idOf, stamp, w1, run[1]), run[2]), []);
    assert OneAtATime(idOf, stamp, Step(idOf, stamp, w1, run[1]), [run[2]]);
    assert OneAtATime(idOf, stamp, w1, run[1..]);
  }

  lemma UnionOfClash<E>(idOf: E -> string, f: E, e: E)
    requires idOf(e) == idOf(f) != ""
    ensures Union(idOf, [[f], [e]]) == [f]
  {
    FlattenPair([f], [e]);
    FlattenPair([f], []);
    FirstsSnoc(idOf, [f], e);
    assert [f] + [] == [f] && [] + [f] == [f];
    FirstsSnoc(idOf, [], f);
    assert Firsts(idOf, [f]) == [f];
    assert f in [f] && IdIn(idOf, idOf(e), [f]);
    UnionOfFirst(idOf, f);
  }

  /** A stamped copy that came back makes such a clash: the original is stored by one sync and erased by the next. */
  lemma StampedCopyDropsOriginal<E(!new)>(idOf: E -> string, stamp: E -> E, e: E)
    requires idOf(e) != "" && idOf(stamp(e)) == idOf(e) && stamp(e) != e
    ensures CanRun(idOf, stamp, Start(2), CopyRun(e, stamp(e)))
    ensures var w := After(idOf, stamp, Start(2), CopyRun(e, stamp(e)));
            && CanRun(idOf, stamp, w, FullSync(0))
            && var v := After(idOf, stamp, w, FullSync(0));
               && v.shared == Some([e]) && CanRun(idOf, stamp, v, FullSync(1))
               && After(idOf, stamp, v, FullSync(1)).shared == Some([stamp(e)])
  {
    CopyRunEffect(idOf, stamp, e);
    StartSound<E>(idOf, 2);
    var w := After(idOf, stamp, Start(2), CopyRun(e, stamp(e)));
    RunSound(idOf, stamp, Start(2), CopyRun(e, stamp(e)));
    FullSyncEffect(idOf, stamp, w, 0);
    UnionOfFirst(idOf, e);
    var v := After(idOf, stamp, w, FullSync(0));
    RunSound(idOf, stamp, w, FullSync(0));
    FullSyncEffect(idOf, stamp, v, 1);
    UnionOfClash(idOf, stamp(e), e);
  }

  /** Two overlapping syncs: the second put erases the first machine's event from the object, though every get
      succeeded. */
  lemma OverlappingPutsDropAnEvent<E(!new)>(idOf: E -> string, stamp: E -> E, e: E, f: E)
    requires idOf(e) != "" && idOf(f) != "" && idOf(e) != idOf(f)
    ensures var w := Pair(e, f, None, Idle, Idle);
            var run := [Get(0, true), Get(1, true), Merge(0, false), Merge(1, false), Put(0, true), Put(1, true)];
            && Settled(idOf, w) && CanRun(idOf, stamp, w, run)
            && After(idOf, stamp, w, run) == Pair(e, f, Some([f]), Idle, Idle)
  {
    PairSound(idOf, e, f, None);
    OverlapRun(idOf, stamp, e, f,
               [Get(0, true), Get(1, true), Merge(0, false), Merge(1, false), Put(0, true), Put(1, true)]);
  }

  lemma OverlapRun<E>(idOf: E -> string, stamp: E -> E, e: E, f: E, run: seq<Action<E>>)
    requires idOf(e) != "" && idOf(f) != ""
    requires |run| == 6 && run[0] == Get(0, true) && run[1] == Get(1, true) && run[2] == Merge(0, false)
    requires run[3] == Merge(1, false) && run[4] == Put(0, true) && run[5] == Put(1, true)
    ensures var w := Pair(e, f, None, Idle, Idle);
            CanRun(idOf, stamp, w, run) && After(idOf, stamp, w, run) == Pair(e, f, Some([f]), Idle, Idle)
  {
    OverlappingPuts(idOf, stamp, e, f, run);
    OverlappingMerges(idOf, stamp, e, f);
    var w0, w1 := Pair(e, f, None, Idle, Idle), Pair(e, f, None, Fetched([]), Idle);
    var w2, w3 := Pair(e, f, None, Fetched([]), Fetched([])), Pair(e, f, None, Putting([e]), Fetched([]));
    RunOne(idOf, stamp, w3, run, 3);
    RunOne(idOf, stamp, w2, run, 2);
    assert Step(idOf, stamp, w1, run[1]) == w2;
    RunOne(idOf, stamp, w1, run, 1);
    assert Step(idOf, stamp, w0, run[0]) == w1;
    RunOne(idOf, stamp, w0, run, 0);
    assert run[0..] == run;
  }

  lemma OverlappingMerges<E>(idOf: E -> string, stamp: E -> E, e: E, f: E)
    requires idOf(e) != "" && idOf(f) != ""
    ensures var w2 := Pair(e, f, None, Fetched([]), Fetched([]));
            var w3 := Pair(e, f, None, Putting([e]), Fetched([]));
            && Step(idOf, stamp, w2, Merge(0, false)) == w3
            && Step(idOf, stamp, w3, Merge(1, false)) == Pair(e, f, None, Putting([e]), Putting([f]))
  {
    UnionOfFirst(idOf, e);
    UnionOfFirst(idOf, f);
  }

  lemma OverlappingPuts<E>(idOf: E -> string, stamp: E -> E, e: E, f: E, run: seq<Action<E>>)
    requires |run| == 6 && run[4] == Put(0, true) && run[5] == Put(1, true)
    ensures var w4 := Pair(e, f, None, Putting([e]), Putting([f]));
            CanRun(idOf, stamp, w4, run[4..]) && After(idOf, stamp, w4, run[4..]) == Pair(e, f, Some([f]), Idle, Idle)
  {
    var w4 := Pair(e, f, None, Putting([e]), Putting([f]));
    var w5 := Pair(e, f, Some([e]), Idle, Putting([f]));
    assert Step(idOf, stamp, w4, run[4]) == w5;
    RunOne(idOf, stamp, w5, run, 5);
    RunOne(idOf, stamp, w4, run, 4);
  }

  lemma RunOne<E>(idOf: E -> string, stamp: E -> E, w: World<E>, run: seq<Action<E>>, i: nat)
    requires i < |run| && Enabled(idOf, w, run[i])
    requires CanRun(idOf, stamp, Step(idOf, stamp, w, run[i]), run[i + 1..])
    ensures CanRun(idOf, stamp, w, run[i..])
    ensures After(idOf, stamp, w, run[i..]) == After(idOf, stamp, Step(idOf, stamp, w, run[i]), run[i + 1..])
  {
    assert run[i..][1..] == run[i + 1..];
  }

  lemma UnionOfFirst<E>(idOf: E -> string, e: E)
    requires idOf(e) != ""
    ensures Union(idOf, [[e], []]) == [e]
  {
    FlattenPair([e], []);
    FlattenPair([], [e]);
    assert [e] + [] == [] + [e];
    UnionOfOne(idOf, e);
  }
}
