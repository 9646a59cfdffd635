/** The ledger replication protocol of `canon task`, as a step system over any number of machines.

    Each machine appends to its own ledgers. A sync through the shared object is three separate steps
    (get, local merge, put) that interleave freely with every other machine; a sync through the server
    is pushes and a fetch. A pushed copy is stamped first: `stamp` fills in what the server demands and the
    local event may lack. Transport may fail at any step. */
module LedgerSync {
  import opened Text
  import opened Sorting
  import opened FirstWins

  /** Where a machine is inside an object sync. */
  datatype Phase<E> = Idle | Fetched(remote: seq<E>) | Putting(body: seq<E>)

  datatype World<E> = World(
    ledgers: seq<seq<E>>,        // one company ledger per machine
    repos: seq<seq<E>>,          // one repository ledger per machine
    shared: Option<seq<E>>,      // the shared object, absent before the first put
    server: seq<E>,              // rows accepted by the server, append-only
    phases: seq<Phase<E>>)

  datatype Action<E> =
    | Record(m: nat, e: E, toRepo: bool)     // `_record_event`: append to one of the machine's ledgers
    | Push(m: nat, e: E, ok: bool)           // POST the stamped copy of one local event
    | Fetch(m: nat, rows: Option<seq<E>>)    // GET rows and merge them; None is an unreachable server
    | Get(m: nat, ok: bool)                  // read the object; a failed get reads as empty
    | Merge(m: nat, pullOnly: bool)          // local read-merge-write
    | Put(m: nat, ok: bool)                  // overwrite the object

  predicate Enabled<E(==)>(idOf: E -> string, w: World<E>, a: Action<E>) {
    && |w.ledgers| == |w.repos| == |w.phases|
    && a.m < |w.ledgers|
    && match a
       case Record(_, e, _) => idOf(e) != "" && FreshId(idOf, w, idOf(e))
       case Push(m, e, _) => e in w.ledgers[m] || e in w.repos[m]
       case Fetch(_, rows) => rows.Some? ==> forall i :: 0 <= i < |rows.value| ==> rows.value[i] in w.server
       case Get(m, _) => w.phases[m].Idle?
       case Merge(m, _) => w.phases[m].Fetched?
       case Put(m, _) => w.phases[m].Putting?
  }

  /** Event ids are generated fresh: no machine has recorded this one. */
  predicate FreshId<E>(idOf: E -> string, w: World<E>, id: string) {
    && (forall m, i :: 0 <= m < |w.ledgers| && 0 <= i < |w.ledgers[m]| ==> idOf(w.ledgers[m][i]) != id)
    && (forall m, i :: 0 <= m < |w.repos| && 0 <= i < |w.repos[m]| ==> idOf(w.repos[m][i]) != id)
  }

  function Step<E(==)>(idOf: E -> string, stamp: E -> E, w: World<E>, a: Action<E>): World<E>
    requires Enabled(idOf, w, a)
  {
    match a
    case Record(m, e, toRepo) =>
      if toRepo then w.(repos := w.repos[m := w.repos[m] + [e]])
      else w.(ledgers := w.ledgers[m := w.ledgers[m] + [e]])
    case Push(_, e, ok) => if ok then w.(server := w.server + [stamp(e)]) else w
    case Fetch(m, rows) =>
      if rows.None? then w else w.(ledgers := w.ledgers[m := Union(idOf, [w.ledgers[m], rows.value])])
    case Get(m, ok) => w.(phases := w.phases[m := Fetched(if ok then w.shared.GetOr([]) else [])])
    case Merge(m, pullOnly) =>
      var merged := Union(idOf, [w.ledgers[m], w.phases[m].remote]);
      w.(ledgers := w.ledgers[m := merged], phases := w.phases[m := if pullOnly then Idle else Putting(merged)])
    case Put(m, ok) =>
      w.(shared := if ok then Some(w.phases[m].body) else w.shared, phases := w.phases[m := Idle])
  }

  ghost predicate CanRun<E>(idOf: E -> string, stamp: E -> E, w: World<E>, run: seq<Action<E>>)
    decreases |run|
  {
    run == [] || (Enabled(idOf, w, run[0]) && CanRun(idOf, stamp, Step(idOf, stamp, w, run[0]), run[1..]))
  }

  function After<E(==)>(idOf: E -> string, stamp: E -> E, w: World<E>, run: seq<Action<E>>): World<E>
    requires CanRun(idOf, stamp, w, run)
    decreases |run|
  {
    if run == [] then w else After(idOf, stamp, Step(idOf, stamp, w, run[0]), run[1..])
  }

  function Start<E>(n: nat): World<E> {
    World(seq(n, _ => []), seq(n, _ => []), None, [], seq(n, _ => Idle))
  }

  // ---- What every run keeps ------------------------------------------------------------

  ghost predicate InCompany<E>(w: World<E>, e: E) {
    exists m :: 0 <= m < |w.ledgers| && e in w.ledgers[m]
  }

  ghost predicate InRepo<E>(w: World<E>, e: E) {
    exists m :: 0 <= m < |w.repos| && e in w.repos[m]
  }

  ghost predicate Local<E>(w: World<E>, e: E) {
    InCompany(w, e) || InRepo(w, e)
  }

  ghost predicate OnlyCompany<E(!new)>(w: World<E>, es: seq<E>) {
    forall e :: e in es ==> InCompany(w, e)
  }

  /** A list a union wrote from company ledgers. */
  ghost predicate Written<E(!new)>(idOf: E -> string, w: World<E>, es: seq<E>) {
    Tidy(idOf, es) && OnlyCompany(w, es)
  }

  ghost predicate PhaseOk<E(!new)>(idOf: E -> string, w: World<E>, p: Phase<E>) {
    match p
    case Idle => true
    case Fetched(remote) => Written(idOf, w, remote)
    case Putting(body) => Written(idOf, w, body)
  }

  /** Every ledger is tidy, and so is what travels through the object, all of which is in some ledger. */
  ghost predicate Sound<E(!new)>(idOf: E -> string, w: World<E>) {
    && |w.ledgers| == |w.repos| == |w.phases|
    && (forall m :: 0 <= m < |w.ledgers| ==> Tidy(idOf, w.ledgers[m]))
    && Written(idOf, w, w.shared.GetOr([]))
    && (forall m :: 0 <= m < |w.phases| ==> PhaseOk(idOf, w, w.phases[m]))
  }

  /** Every ledger of every machine keeps what it had, and the server its rows. */
  ghost predicate Keeps<E(!new)>(w: World<E>, v: World<E>) {
    && |v.ledgers| == |w.ledgers| && |v.repos| == |w.repos|
    && (forall m, e :: 0 <= m < |w.ledgers| && e in w.ledgers[m] ==> e in v.ledgers[m])
    && (forall m, e :: 0 <= m < |w.repos| && e in w.repos[m] ==> e in v.repos[m])
    && (forall e :: e in w.server ==> e in v.server)
  }

  lemma StartSound<E(!new)>(idOf: E -> string, n: nat)
    ensures Sound(idOf, Start<E>(n))
  {
  }

  lemma KeepsLocal<E(!new)>(w: World<E>, v: World<E>)
    requires Keeps(w, v)
    ensures forall e :: InCompany(w, e) ==> InCompany(v, e)
    ensures forall e :: Local(w, e) ==> Local(v, e)
  {
    forall e | InCompany(w, e) ensures InCompany(v, e) {
      var m :| 0 <= m < |w.ledgers| && e in w.ledgers[m];
      assert e in v.ledgers[m];
    }
    forall e | InRepo(w, e) ensures InRepo(v, e) {
      var m :| 0 <= m < |w.repos| && e in w.repos[m];
      assert e in v.repos[m];
    }
  }

  /** Replacing one ledger by a tidy one that holds at least as much. */
  lemma GrowSound<E(!new)>(idOf: E -> string, w: World<E>, m: nat, merged: seq<E>)
    requires Sound(idOf, w) && m < |w.ledgers| && Tidy(idOf, merged)
    requires forall e :: e in w.ledgers[m] ==> e in merged
    ensures var v := w.(ledgers := w.ledgers[m := merged]);
            Sound(idOf, v) && Keeps(w, v)
  {
    KeepsLocal(w, w.(ledgers := w.ledgers[m := merged]));
  }

  lemma MergeGrows<E>(idOf: E -> string, own: seq<E>, more: seq<E>)
    requires Tidy(idOf, own)
    ensures Tidy(idOf, Union(idOf, [own, more]))
    ensures forall e :: e in own ==> e in Union(idOf, [own, more])
    ensures forall e :: e in Union(idOf, [own, more]) ==> e in own || e in more
  {
    UnionTidy(idOf, [own, more]);
    UnionKeepsOwn(idOf, own, more);
    FlattenPair(own, more);
  }

  lemma RecordSound<E(!new)>(idOf: E -> string, stamp: E -> E, w: World<E>, m: nat, e: E, toRepo: bool)
    requires Sound(idOf, w) && Enabled(idOf, w, Record(m, e, toRepo))
    ensures var v := Step(idOf, stamp, w, Record(m, e, toRepo));
            && Sound(idOf, v) && Keeps(w, v) && e in if toRepo then v.repos[m] else v.ledgers[m]
  {
    var v := Step(idOf, stamp, w, Record(m, e, toRepo));
    if toRepo {
      assert v.ledgers == w.ledgers;
      KeepsLocal(w, v);
    } else {
      forall x | x in w.ledgers[m] ensures idOf(x) != idOf(e) {
        var i :| 0 <= i < |w.ledgers[m]| && w.ledgers[m][i] == x;
      }
      GrowSound(idOf, w, m, w.ledgers[m] + [e]);
    }
  }

  lemma MergeSound<E(!new)>(idOf: E -> string, stamp: E -> E, w: World<E>, m: nat, pullOnly: bool)
    requires Sound(idOf, w) && Enabled(idOf, w, Merge(m, pullOnly))
    ensures var v := Step(idOf, stamp, w, Merge(m, pullOnly)); Sound(idOf, v) && Keeps(w, v)
  {
    var merged := Union(idOf, [w.ledgers[m], w.phases[m].remote]);
    MergeGrows(idOf, w.ledgers[m], w.phases[m].remote);
    GrowSound(idOf, w, m, merged);
    var v := Step(idOf, stamp, w, Merge(m, pullOnly));
    forall e | InCompany(w.(ledgers := w.ledgers[m := merged]), e) ensures InCompany(v, e) {}
    forall e | e in merged ensures InCompany(v, e) { assert e in v.ledgers[m]; }
  }

  lemma FetchSound<E(!new)>(idOf: E -> string, stamp: E -> E, w: World<E>, m: nat, rows: seq<E>)
    requires Sound(idOf, w) && Enabled(idOf, w, Fetch(m, Some(rows)))
    ensures var v := Step(idOf, stamp, w, Fetch(m, Some(rows))); Sound(idOf, v) && Keeps(w, v)
  {
    MergeGrows(idOf, w.ledgers[m], rows);
    GrowSound(idOf, w, m, Union(idOf, [w.ledgers[m], rows]));
  }

  /** What is local does not depend on the transports. */
  lemma SameLedgers<E(!new)>(w: World<E>, v: World<E>)
    requires w.ledgers == v.ledgers && w.repos == v.repos
    ensures forall e :: InCompany(v, e) <==> InCompany(w, e)
    ensures forall e :: Local(v, e) <==> Local(w, e)
  {
    forall e ensures InCompany(v, e) <==> InCompany(w, e) {}
    forall e ensures InRepo(v, e) <==> InRepo(w, e) {}
  }

  lemma TransportSound<E(!new)>(idOf: E -> string, stamp: E -> E, w: World<E>, a: Action<E>)
    requires Sound(idOf, w) && Enabled(idOf, w, a) && (a.Push? || a.Get? || a.Put?)
    ensures var v := Step(idOf, stamp, w, a); Sound(idOf, v) && Keeps(w, v)
  {
    SameLedgers(w, Step(idOf, stamp, w, a));
    assert a.Put? ==> PhaseOk(idOf, w, w.phases[a.m]);
  }

  /** What every step keeps, whatever is recorded and however copies are stamped. */
  lemma StepSound<E(!new)>(idOf: E -> string, stamp: E -> E, w: World<E>, a: Action<E>)
    requires Sound(idOf, w) && Enabled(idOf, w, a)
    ensures Sound(idOf, Step(idOf, stamp, w, a)) && Keeps(w, Step(idOf, stamp, w, a))
  {
    match a
    case Record(m, e, toRepo) => RecordSound(idOf, stamp, w, m, e, toRepo);
    case Fetch(m, rows) => if rows.Some? { FetchSound(idOf, stamp, w, m, rows.value); }
    case Merge(m, pullOnly) => MergeSound(idOf, stamp, w, m, pullOnly);
    case _ => TransportSound(idOf, stamp, w, a);
  }

  lemma {:induction false} RunSound<E(!new)>(idOf: E -> string, stamp: E -> E, w: World<E>, run: seq<Action<E>>)
    requires Sound(idOf, w) && CanRun(idOf, stamp, w, run)
    ensures Sound(idOf, After(idOf, stamp, w, run)) && Keeps(w, After(idOf, stamp, w, run))
    decreases |run|
  {
    if run != [] {
      StepSound(idOf, stamp, w, run[0]);
      RunSound(idOf, stamp, Step(idOf, stamp, w, run[0]), run[1..]);
    }
  }

  /** Safety over whole runs, whatever the interleaving, whatever transport does and whatever copies the
      server hands out: a recorded event stays in the ledger it was appended to. */
  lemma NothingIsLost<E(!new)>(idOf: E -> string, stamp: E -> E, n: nat, before: seq<Action<E>>, m: nat, e: E,
                               toRepo: bool, after: seq<Action<E>>)
    requires CanRun(idOf, stamp, Start(n), before)
    requires Enabled(idOf, After(idOf, stamp, Start(n), before), Record(m, e, toRepo))
    requires CanRun(idOf, stamp, Step(idOf, stamp, After(idOf, stamp, Start(n), before), Record(m, e, toRepo)), after)
    ensures var w := Step(idOf, stamp, After(idOf, stamp, Start(n), before), Record(m, e, toRepo));
            var v := After(idOf, stamp, w, after);
            && |v.ledgers| == |v.repos| == n && m < n
            && e in (if toRepo then v.repos[m] else v.ledgers[m])
            && Sound(idOf, v)
  {
    StartSound(idOf, n);
    RunSound(idOf, stamp, Start(n), before);
    var w := After(idOf, stamp, Start(n), before);
    RecordSound(idOf, stamp, w, m, e, toRepo);
    RunSound(idOf, stamp, Step(idOf, stamp, w, Record(m, e, toRepo)), after);
  }
}
