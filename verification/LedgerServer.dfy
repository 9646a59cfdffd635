/** What two rounds of complete server syncs achieve, and exactly when. */
module LedgerServer {
  import opened Text
  import opened Sorting
  import opened FirstWins
  import opened LedgerSync
  import opened LedgerIdentity
  import opened LedgerConvergence

  // ---- One sync --------------------------------------------------------------------------

  /** A fetch that returns all rows, in any order. */
  ghost predicate Complete<E(!new)>(listing: seq<E> -> seq<E>) {
    forall rows, e :: e in listing(rows) <==> e in rows
  }

  /** What a machine pushes: the distinct events of its two ledgers. */
  function OwnEvents<E>(idOf: E -> string, w: World<E>, m: nat): seq<E>
    requires m < |w.ledgers| == |w.repos|
  {
    Union(idOf, [w.repos[m], w.ledgers[m]])
  }

  function Pushes<E>(m: nat, es: seq<E>): seq<Action<E>> {
    if es == [] then [] else [Push(m, es[0], true)] + Pushes(m, es[1..])
  }

  /** The rows after machine `m` has pushed everything. */
  function RowsAfter<E>(idOf: E -> string, stamp: E -> E, w: World<E>, m: nat): seq<E>
    requires m < |w.ledgers| == |w.repos|
  {
    w.server + Map(OwnEvents(idOf, w, m), stamp)
  }

  /** Push everything, every push accepted, then fetch everything. */
  function ServerSync<E>(idOf: E -> string, stamp: E -> E, w: World<E>, m: nat, listing: seq<E> -> seq<E>)
    : seq<Action<E>>
    requires m < |w.ledgers| == |w.repos|
  {
    Pushes(m, OwnEvents(idOf, w, m)) + [Fetch(m, Some(listing(RowsAfter(idOf, stamp, w, m))))]
  }

  /** The net effect. */
  function ServerSynced<E>(idOf: E -> string, stamp: E -> E, w: World<E>, m: nat, listing: seq<E> -> seq<E>): World<E>
    requires m < |w.ledgers| == |w.repos|
  {
    var rows := RowsAfter(idOf, stamp, w, m);
    w.(server := rows, ledgers := w.ledgers[m := Union(idOf, [w.ledgers[m], listing(rows)])])
  }

  lemma {:induction false} PushesEffect<E(!new)>(idOf: E -> string, stamp: E -> E, w: World<E>, m: nat, es: seq<E>)
    requires |w.ledgers| == |w.repos| == |w.phases| && m < |w.ledgers|
    requires forall e :: e in es ==> e in w.ledgers[m] || e in w.repos[m]
    ensures CanRun(idOf, stamp, w, Pushes(m, es))
    ensures After(idOf, stamp, w, Pushes(m, es)) == w.(server := w.server + Map(es, stamp))
    decreases |es|
  {
    if es == [] {
      assert w.server + [] == w.server;
    } else {
      var e, rest := es[0], es[1..];
      assert e in es;
      PushesEffect(idOf, stamp, w.(server := w.server + [stamp(e)]), m, rest);
      PushFirst(idOf, stamp, w, m, e, Pushes(m, rest));
      assert w.server + ([stamp(e)] + Map(rest, stamp)) == (w.server + [stamp(e)]) + Map(rest, stamp);
    }
  }

  lemma PushFirst<E(!new)>(idOf: E -> string, stamp: E -> E, w: World<E>, m: nat, e: E, rest: seq<Action<E>>)
    requires Enabled(idOf, w, Push(m, e, true))
    requires CanRun(idOf, stamp, w.(server := w.server + [stamp(e)]), rest)
    ensures CanRun(idOf, stamp, w, [Push(m, e, true)] + rest)
    ensures After(idOf, stamp, w, [Push(m, e, true)] + rest)
         == After(idOf, stamp, w.(server := w.server + [stamp(e)]), rest)
  {
    var run := [Push(m, e, true)] + rest;
    assert run[0] == Push(m, e, true) && run[1..] == rest;
  }

  lemma ServerSyncEffect<E(!new)>(idOf: E -> string, stamp: E -> E, w: World<E>, m: nat, listing: seq<E> -> seq<E>)
    requires Sound(idOf, w) && Complete(listing) && m < |w.ledgers|
    ensures CanRun(idOf, stamp, w, ServerSync(idOf, stamp, w, m, listing))
    ensures After(idOf, stamp, w, ServerSync(idOf, stamp, w, m, listing)) == ServerSynced(idOf, stamp, w, m, listing)
  {
    var own, rows := OwnEvents(idOf, w, m), RowsAfter(idOf, stamp, w, m);
    UnionTidy(idOf, [w.repos[m], w.ledgers[m]]);
    FlattenPair(w.repos[m], w.ledgers[m]);
    PushesEffect(idOf, stamp, w, m, own);
    var u := After(idOf, stamp, w, Pushes(m, own));
    var fetch: seq<Action<E>> := [Fetch(m, Some(listing(rows)))];
    forall i | 0 <= i < |listing(rows)| ensures listing(rows)[i] in u.server {
      assert listing(rows)[i] in listing(rows);
    }
    FetchAlone(idOf, stamp, u, m, listing(rows));
    RunConcat(idOf, stamp, w, Pushes(m, own), fetch);
  }

  lemma FetchAlone<E(!new)>(idOf: E -> string, stamp: E -> E, w: World<E>, m: nat, rows: seq<E>)
    requires Enabled(idOf, w, Fetch(m, Some(rows)))
    ensures CanRun(idOf, stamp, w, [Fetch(m, Some(rows))])
    ensures After(idOf, stamp, w, [Fetch(m, Some(rows))]) == Step(idOf, stamp, w, Fetch(m, Some(rows)))
  {
    var run: seq<Action<E>> := [Fetch(m, Some(rows))];
    assert run[1..] == [];
  }

  // ---- Everything the machines can come to hold ---------------------------------------------

  /** What is or can be in a company ledger: company events, rows, and the stamped copies of local events. */
  ghost predicate Pool<E(!new)>(idOf: E -> string, stamp: E -> E, w: World<E>, x: E) {
    idOf(x) != "" && (InCompany(w, x) || x in w.server || exists e :: Local(w, e) && stamp(e) == x)
  }

  /** Ids tell apart everything in the pool. */
  ghost predicate PoolTold<E(!new)>(idOf: E -> string, stamp: E -> E, w: World<E>) {
    forall x, y :: Pool(idOf, stamp, w, x) && Pool(idOf, stamp, w, y) && idOf(x) == idOf(y) ==> x == y
  }

  ghost predicate SamePool<E(!new)>(idOf: E -> string, stamp: E -> E, w: World<E>, v: World<E>) {
    forall x :: Pool(idOf, stamp, w, x) <==> Pool(idOf, stamp, v, x)
  }

  /** Stamping keeps ids, is done after one time, and has been done to every row. */
  ghost predicate Stamps<E(!new)>(idOf: E -> string, stamp: E -> E, w: World<E>) {
    && KeepsIds(idOf, stamp) && (forall e :: stamp(stamp(e)) == stamp(e))
    && forall x :: x in w.server ==> stamp(x) == x
  }

  ghost predicate Steady<E(!new)>(idOf: E -> string, stamp: E -> E, w: World<E>) {
    Sound(idOf, w) && Stamps(idOf, stamp, w) && PoolTold(idOf, stamp, w)
  }

  /** Every row after the pushes is an earlier one or the copy of a local event. */
  lemma RowsFrom<E(!new)>(idOf: E -> string, stamp: E -> E, w: World<E>, m: nat, x: E) returns (e: E)
    requires Sound(idOf, w) && Stamps(idOf, stamp, w) && m < |w.ledgers| && x in RowsAfter(idOf, stamp, w, m)
    ensures x in w.server || (Local(w, e) && stamp(e) == x)
    ensures stamp(x) == x
  {
    var own := OwnEvents(idOf, w, m);
    e := x;
    if x !in w.server {
      var i :| 0 <= i < |own| && Map(own, stamp)[i] == x;
      e := own[i];
      assert e in own;
      UnionTidy(idOf, [w.repos[m], w.ledgers[m]]);
      FlattenPair(w.repos[m], w.ledgers[m]);
      assert InRepo(w, e) || InCompany(w, e);
    }
  }

  /** What the synced ledger holds comes from the ledger or the rows. */
  lemma SyncedLedger<E(!new)>(idOf: E -> string, stamp: E -> E, w: World<E>, m: nat, listing: seq<E> -> seq<E>, x: E)
    requires Complete(listing) && m < |w.ledgers| == |w.repos|
    requires x in ServerSynced(idOf, stamp, w, m, listing).ledgers[m]
    ensures x in w.ledgers[m] || x in RowsAfter(idOf, stamp, w, m)
  {
    var rows := RowsAfter(idOf, stamp, w, m);
    UnionTidy(idOf, [w.ledgers[m], listing(rows)]);
    FlattenPair(w.ledgers[m], listing(rows));
  }

  lemma SyncedSound<E(!new)>(idOf: E -> string, stamp: E -> E, w: World<E>, m: nat, listing: seq<E> -> seq<E>)
    requires Sound(idOf, w) && Stamps(idOf, stamp, w) && Complete(listing) && m < |w.ledgers|
    ensures var v := ServerSynced(idOf, stamp, w, m, listing);
            Sound(idOf, v) && Stamps(idOf, stamp, v) && Keeps(w, v)
  {
    var v := ServerSynced(idOf, stamp, w, m, listing);
    ServerSyncEffect(idOf, stamp, w, m, listing);
    RunSound(idOf, stamp, w, ServerSync(idOf, stamp, w, m, listing));
    forall x | x in v.server ensures stamp(x) == x {
      var e := RowsFrom(idOf, stamp, w, m, x);
    }
  }

  /** A local event afterwards was local before, or is a row. */
  lemma SyncedLocal<E(!new)>(idOf: E -> string, stamp: E -> E, w: World<E>, m: nat, listing: seq<E> -> seq<E>, x: E)
    requires Complete(listing) && m < |w.ledgers| == |w.repos|
    requires Local(ServerSynced(idOf, stamp, w, m, listing), x)
    ensures Local(w, x) || x in RowsAfter(idOf, stamp, w, m)
    ensures InCompany(ServerSynced(idOf, stamp, w, m, listing), x) ==>
              InCompany(w, x) || x in RowsAfter(idOf, stamp, w, m)
  {
    var v := ServerSynced(idOf, stamp, w, m, listing);
    if InCompany(v, x) {
      var k :| 0 <= k < |v.ledgers| && x in v.ledgers[k];
      if k == m {
        SyncedLedger(idOf, stamp, w, m, listing, x);
      }
      assert k != m ==> x in w.ledgers[k];
    } else {
      var k :| 0 <= k < |v.repos| && x in v.repos[k];
      assert InRepo(w, x);
    }
  }

  /** A sync adds nothing to the pool and takes nothing from it. */
  lemma SyncedPool<E(!new)>(idOf: E -> string, stamp: E -> E, w: World<E>, m: nat, listing: seq<E> -> seq<E>)
    requires Sound(idOf, w) && Stamps(idOf, stamp, w) && Complete(listing) && m < |w.ledgers|
    ensures SamePool(idOf, stamp, w, ServerSynced(idOf, stamp, w, m, listing))
  {
    var v := ServerSynced(idOf, stamp, w, m, listing);
    SyncedSound(idOf, stamp, w, m, listing);
    KeepsLocal(w, v);
    forall x | Pool(idOf, stamp, v, x) ensures Pool(idOf, stamp, w, x) {
      if x in v.server {
        var e := RowsFrom(idOf, stamp, w, m, x);
      } else if InCompany(v, x) {
        SyncedLocal(idOf, stamp, w, m, listing, x);
      } else {
        var e :| Local(v, e) && stamp(e) == x;
        SyncedLocal(idOf, stamp, w, m, listing, e);
        if e in v.server {
          var g := RowsFrom(idOf, stamp, w, m, e);
        }
      }
    }
  }

  // ---- First round: the server comes to hold everything ----------------------------------------

  /** The server has the copies of all local events of machine `k`. */
  ghost predicate StoredFor<E(!new)>(idOf: E -> string, stamp: E -> E, w: World<E>, k: nat)
    requires k < |w.ledgers| == |w.repos|
  {
    forall e :: (e in w.ledgers[k] || e in w.repos[k]) && idOf(e) != "" ==> stamp(e) in w.server
  }

  ghost predicate Stored<E(!new)>(idOf: E -> string, stamp: E -> E, w: World<E>, ms: set<nat>) {
    |w.ledgers| == |w.repos| && forall k :: k in ms && k < |w.ledgers| ==> StoredFor(idOf, stamp, w, k)
  }

  lemma PushedStored<E(!new)>(idOf: E -> string, stamp: E -> E, w: World<E>, m: nat, e: E)
    requires Steady(idOf, stamp, w) && m < |w.ledgers|
    requires (e in w.ledgers[m] || e in w.repos[m]) && idOf(e) != ""
    ensures stamp(e) in RowsAfter(idOf, stamp, w, m)
  {
    var both, own := w.repos[m] + w.ledgers[m], OwnEvents(idOf, w, m);
    FlattenPair(w.repos[m], w.ledgers[m]);
    assert e in both;
    FirstsCover(idOf, both, idOf(e));
    var g :| g in Firsts(idOf, both) && idOf(g) == idOf(e);
    UnionIsFirsts(idOf, [w.repos[m], w.ledgers[m]], g);
    var i :| 0 <= i < |own| && own[i] == g;
    assert Map(own, stamp)[i] == stamp(g);
    assert Local(w, e) && Local(w, g) by {
      assert g in both;
      assert (InRepo(w, e) || InCompany(w, e)) && (InRepo(w, g) || InCompany(w, g));
    }
    assert Pool(idOf, stamp, w, stamp(e)) && Pool(idOf, stamp, w, stamp(g));
  }

  /** The synced machine's own events are stored. */
  lemma SyncedOwnStored<E(!new)>(idOf: E -> string, stamp: E -> E, w: World<E>, m: nat, listing: seq<E> -> seq<E>)
    requires Steady(idOf, stamp, w) && Complete(listing) && m < |w.ledgers|
    ensures StoredFor(idOf, stamp, ServerSynced(idOf, stamp, w, m, listing), m)
  {
    var v := ServerSynced(idOf, stamp, w, m, listing);
    forall e | (e in v.ledgers[m] || e in v.repos[m]) && idOf(e) != "" ensures stamp(e) in v.server {
      if e in w.ledgers[m] || e in w.repos[m] {
        PushedStored(idOf, stamp, w, m, e);
      } else {
        SyncedLedger(idOf, stamp, w, m, listing, e);
        var g := RowsFrom(idOf, stamp, w, m, e);
      }
    }
  }

  /** The events of the other machines stay stored. */
  lemma SyncedKeepsStored<E(!new)>(idOf: E -> string, stamp: E -> E, w: World<E>, m: nat, listing: seq<E> -> seq<E>,
                                   k: nat)
    requires m < |w.ledgers| == |w.repos| && k < |w.ledgers| && k != m && StoredFor(idOf, stamp, w, k)
    ensures StoredFor(idOf, stamp, ServerSynced(idOf, stamp, w, m, listing), k)
  {
    var v := ServerSynced(idOf, stamp, w, m, listing);
    assert v.ledgers[k] == w.ledgers[k];
    forall x | x in w.server ensures x in v.server {}
  }

  lemma SyncedStores<E(!new)>(idOf: E -> string, stamp: E -> E, w: World<E>, m: nat, listing: seq<E> -> seq<E>,
                              ms: set<nat>)
    requires Steady(idOf, stamp, w) && Complete(listing) && m < |w.ledgers| && Stored(idOf, stamp, w, ms)
    ensures Stored(idOf, stamp, ServerSynced(idOf, stamp, w, m, listing), ms + {m})
  {
    var v := ServerSynced(idOf, stamp, w, m, listing);
    SyncedOwnStored(idOf, stamp, w, m, listing);
    forall k | k in ms + {m} && k < |v.ledgers| ensures StoredFor(idOf, stamp, v, k) {
      if k != m {
        SyncedKeepsStored(idOf, stamp, w, m, listing, k);
      }
    }
  }

  lemma LocalStored<E(!new)>(idOf: E -> string, stamp: E -> E, w: World<E>, all: set<nat>, e: E)
    requires Sound(idOf, w) && Stored(idOf, stamp, w, all) && forall k: nat :: k < |w.ledgers| ==> k in all
    requires Local(w, e) && idOf(e) != ""
    ensures stamp(e) in w.server
  {
    if InCompany(w, e) {
      var k :| 0 <= k < |w.ledgers| && e in w.ledgers[k];
      assert k in all;
    } else {
      var k :| 0 <= k < |w.repos| && e in w.repos[k];
      assert k in all;
    }
  }

  ghost predicate ServesPool<E(!new)>(idOf: E -> string, stamp: E -> E, w: World<E>) {
    forall x :: Pool(idOf, stamp, w, x) ==> x in w.server
  }

  /** Once every machine has synced, the rows are the whole pool. */
  lemma StoredPool<E(!new)>(idOf: E -> string, stamp: E -> E, w: World<E>, all: set<nat>)
    requires Steady(idOf, stamp, w) && Stored(idOf, stamp, w, all) && forall k: nat :: k < |w.ledgers| ==> k in all
    ensures ServesPool(idOf, stamp, w)
  {
    forall x | Pool(idOf, stamp, w, x) ensures x in w.server {
      if InCompany(w, x) {
        LocalStored(idOf, stamp, w, all, x);
        assert Local(w, x) && Pool(idOf, stamp, w, stamp(x));
      } else if e :| Local(w, e) && stamp(e) == x {
        LocalStored(idOf, stamp, w, all, e);
      }
    }
  }

  // ---- Second round: every ledger catches up -----------------------------------------------------

  function Streams<E>(stamp: E -> E, w: World<E>): seq<seq<E>> {
    w.ledgers + [w.server + Map(Flatten(w.ledgers) + Flatten(w.repos), stamp)]
  }

  /** Everything in the pool, as one list: the union of all ledgers, the rows and the stamped copies. */
  function Gathered<E>(idOf: E -> string, stamp: E -> E, w: World<E>): seq<E> {
    Union(idOf, Streams(stamp, w))
  }

  lemma StreamsHoldPool<E(!new)>(idOf: E -> string, stamp: E -> E, w: World<E>, x: E)
    requires idOf(x) != ""
    ensures x in Flatten(Streams(stamp, w)) <==> Pool(idOf, stamp, w, x)
  {
    var local := Flatten(w.ledgers) + Flatten(w.repos);
    var copies := Map(local, stamp);
    FlattenSnoc(w.ledgers, w.server + copies);
    LedgersFlat(w);
    forall e ensures e in local <==> Local(w, e) {
      FlattenMembers(w.repos, e);
    }
    if x in copies {
      var i :| 0 <= i < |copies| && copies[i] == x;
      assert local[i] in local && stamp(local[i]) == x;
    }
    if e :| Local(w, e) && stamp(e) == x {
      var i :| 0 <= i < |local| && local[i] == e;
      assert copies[i] == x;
    }
  }

  lemma PoolDetermines<E(!new)>(idOf: E -> string, stamp: E -> E, w: World<E>)
    requires PoolTold(idOf, stamp, w)
    ensures IdsDetermine(idOf, Flatten(Streams(stamp, w)))
  {
    var es := Flatten(Streams(stamp, w));
    forall e, f | e in es && f in es && idOf(e) != "" && idOf(e) == idOf(f) ensures e == f {
      StreamsHoldPool(idOf, stamp, w, e);
      StreamsHoldPool(idOf, stamp, w, f);
    }
  }

  lemma SameGathered<E(!new)>(idOf: E -> string, stamp: E -> E, w: World<E>, v: World<E>)
    requires PoolTold(idOf, stamp, w) && SamePool(idOf, stamp, w, v)
    ensures Gathered(idOf, stamp, v) == Gathered(idOf, stamp, w)
  {
    PoolDetermines(idOf, stamp, w);
    forall e | idOf(e) != "" ensures e in Flatten(Streams(stamp, w)) <==> e in Flatten(Streams(stamp, v)) {
      StreamsHoldPool(idOf, stamp, w, e);
      StreamsHoldPool(idOf, stamp, v, e);
    }
    UnionCanonical(idOf, Streams(stamp, w), Streams(stamp, v));
  }

  lemma SyncedGathers<E(!new)>(idOf: E -> string, stamp: E -> E, w: World<E>, m: nat, listing: seq<E> -> seq<E>)
    requires Steady(idOf, stamp, w) && Complete(listing) && m < |w.ledgers|
    requires ServesPool(idOf, stamp, w)
    ensures ServerSynced(idOf, stamp, w, m, listing).ledgers[m] == Gathered(idOf, stamp, w)
  {
    var rows := RowsAfter(idOf, stamp, w, m);
    FlattenPair(w.ledgers[m], listing(rows));
    PoolDetermines(idOf, stamp, w);
    forall e | idOf(e) != "" ensures e in w.ledgers[m] + listing(rows) <==> e in Flatten(Streams(stamp, w)) {
      StreamsHoldPool(idOf, stamp, w, e);
      if e in w.ledgers[m] {
        assert InCompany(w, e);
      } else if e in listing(rows) {
        var g := RowsFrom(idOf, stamp, w, m, e);
      }
    }
    UnionCanonical(idOf, Streams(stamp, w), [w.ledgers[m], listing(rows)]);
  }

  // ---- Rounds -------------------------------------------------------------------------------

  function Round<E>(idOf: E -> string, stamp: E -> E, w: World<E>, order: seq<nat>, listing: seq<E> -> seq<E>)
    : (v: World<E>)
    requires Machines(order, |w.ledgers|) && |w.ledgers| == |w.repos|
    ensures |v.ledgers| == |w.ledgers| && v.repos == w.repos
    decreases |order|
  {
    if order == [] then w
    else Round(idOf, stamp, ServerSynced(idOf, stamp, w, order[0], listing), order[1..], listing)
  }

  function RoundActions<E>(idOf: E -> string, stamp: E -> E, w: World<E>, order: seq<nat>, listing: seq<E> -> seq<E>)
    : seq<Action<E>>
    requires Machines(order, |w.ledgers|) && |w.ledgers| == |w.repos|
    decreases |order|
  {
    if order == [] then []
    else ServerSync(idOf, stamp, w, order[0], listing) +
         RoundActions(idOf, stamp, ServerSynced(idOf, stamp, w, order[0], listing), order[1..], listing)
  }

  /** A round is a run, and keeps what runs keep. */
  lemma {:induction false} ServerRoundRuns<E(!new)>(idOf: E -> string, stamp: E -> E, w: World<E>, order: seq<nat>,
                                                    listing: seq<E> -> seq<E>)
    requires Sound(idOf, w) && Stamps(idOf, stamp, w) && Complete(listing) && Machines(order, |w.ledgers|)
    ensures var run, v := RoundActions(idOf, stamp, w, order, listing), Round(idOf, stamp, w, order, listing);
            && CanRun(idOf, stamp, w, run) && After(idOf, stamp, w, run) == v
            && Sound(idOf, v) && Stamps(idOf, stamp, v) && SamePool(idOf, stamp, w, v)
    decreases |order|
  {
    if order != [] {
      var m, rest := order[0], order[1..];
      var u := ServerSynced(idOf, stamp, w, m, listing);
      ServerSyncEffect(idOf, stamp, w, m, listing);
      SyncedSound(idOf, stamp, w, m, listing);
      SyncedPool(idOf, stamp, w, m, listing);
      ServerRoundRuns(idOf, stamp, u, rest, listing);
      RunConcat(idOf, stamp, w, ServerSync(idOf, stamp, w, m, listing), RoundActions(idOf, stamp, u, rest, listing));
    }
  }

  lemma {:induction false} RoundStores<E(!new)>(idOf: E -> string, stamp: E -> E, w: World<E>, order: seq<nat>,
                                                listing: seq<E> -> seq<E>, ms: set<nat>)
    requires Steady(idOf, stamp, w) && Complete(listing) && Machines(order, |w.ledgers|) && Stored(idOf, stamp, w, ms)
    ensures Stored(idOf, stamp, Round(idOf, stamp, w, order, listing), ms + Visited(order))
    decreases |order|
  {
    if order == [] {
      assert ms + Visited(order) == ms;
    } else {
      var m, rest := order[0], order[1..];
      SyncedSound(idOf, stamp, w, m, listing);
      SyncedPool(idOf, stamp, w, m, listing);
      SyncedStores(idOf, stamp, w, m, listing, ms);
      RoundStores(idOf, stamp, ServerSynced(idOf, stamp, w, m, listing), rest, listing, ms + {m});
      assert (ms + {m}) + Visited(rest) == ms + Visited(order);
    }
  }

  /** The state of the second round: the server has everything, and the machines in `done` hold the goal. */
  ghost predicate Gathering<E(!new)>(idOf: E -> string, stamp: E -> E, w: World<E>, goal: seq<E>, done: set<nat>) {
    && Steady(idOf, stamp, w) && ServesPool(idOf, stamp, w)
    && goal == Gathered(idOf, stamp, w)
    && (forall k: nat :: k in done && k < |w.ledgers| ==> w.ledgers[k] == goal)
  }

  lemma SyncedSteady<E(!new)>(idOf: E -> string, stamp: E -> E, w: World<E>, m: nat, listing: seq<E> -> seq<E>)
    requires Steady(idOf, stamp, w) && ServesPool(idOf, stamp, w) && Complete(listing) && m < |w.ledgers|
    ensures var v := ServerSynced(idOf, stamp, w, m, listing);
            Steady(idOf, stamp, v) && ServesPool(idOf, stamp, v) && Gathered(idOf, stamp, v) == Gathered(idOf, stamp, w)
  {
    SyncedSound(idOf, stamp, w, m, listing);
    SyncedPool(idOf, stamp, w, m, listing);
    SameGathered(idOf, stamp, w, ServerSynced(idOf, stamp, w, m, listing));
  }

  lemma GatheringStep<E(!new)>(idOf: E -> string, stamp: E -> E, w: World<E>, m: nat, listing: seq<E> -> seq<E>,
                               goal: seq<E>, done: set<nat>)
    requires Gathering(idOf, stamp, w, goal, done) && Complete(listing) && m < |w.ledgers|
    ensures Gathering(idOf, stamp, ServerSynced(idOf, stamp, w, m, listing), goal, done + {m})
  {
    SyncedSteady(idOf, stamp, w, m, listing);
    SyncedGathers(idOf, stamp, w, m, listing);
  }

  lemma {:induction false} RoundGathers<E(!new)>(idOf: E -> string, stamp: E -> E, w: World<E>, order: seq<nat>,
                                                 listing: seq<E> -> seq<E>, goal: seq<E>, done: set<nat>)
    requires Gathering(idOf, stamp, w, goal, done) && Complete(listing) && Machines(order, |w.ledgers|)
    ensures Gathering(idOf, stamp, Round(idOf, stamp, w, order, listing), goal, done + Visited(order))
    decreases |order|
  {
    if order == [] {
      assert done + Visited(order) == done;
    } else {
      var m, rest := order[0], order[1..];
      GatheringStep(idOf, stamp, w, m, listing, goal, done);
      RoundGathers(idOf, stamp, ServerSynced(idOf, stamp, w, m, listing), rest, listing, goal, done + {m});
      assert (done + {m}) + Visited(rest) == done + Visited(order);
    }
  }

  /** Every machine holds the whole pool of `w`. */
  ghost predicate AllHold<E(!new)>(idOf: E -> string, stamp: E -> E, w: World<E>, v: World<E>) {
    forall m, x :: 0 <= m < |v.ledgers| && Pool(idOf, stamp, w, x) ==> x in v.ledgers[m]
  }

  lemma HeldTold<E(!new)>(idOf: E -> string, stamp: E -> E, w: World<E>, v: World<E>)
    requires Sound(idOf, v) && |v.ledgers| > 0 && AllHold(idOf, stamp, w, v)
    ensures PoolTold(idOf, stamp, w)
  {
    assert Tidy(idOf, v.ledgers[0]);
  }

  lemma GatheredHolds<E(!new)>(idOf: E -> string, stamp: E -> E, w: World<E>)
    requires PoolTold(idOf, stamp, w)
    ensures forall x :: x in Gathered(idOf, stamp, w) <==> Pool(idOf, stamp, w, x)
  {
    PoolDetermines(idOf, stamp, w);
    UnionMembers(idOf, Streams(stamp, w));
    forall x ensures x in Gathered(idOf, stamp, w) <==> Pool(idOf, stamp, w, x) {
      if idOf(x) != "" {
        StreamsHoldPool(idOf, stamp, w, x);
      }
    }
  }

  function TwoRounds<E>(idOf: E -> string, stamp: E -> E, w: World<E>, first: seq<nat>, second: seq<nat>,
                        listing: seq<E> -> seq<E>): World<E>
    requires Machines(first, |w.ledgers|) && Machines(second, |w.ledgers|) && |w.ledgers| == |w.repos|
  {
    Round(idOf, stamp, Round(idOf, stamp, w, first, listing), second, listing)
  }

  function TwoRoundActions<E>(idOf: E -> string, stamp: E -> E, w: World<E>, first: seq<nat>, second: seq<nat>,
                              listing: seq<E> -> seq<E>): seq<Action<E>>
    requires Machines(first, |w.ledgers|) && Machines(second, |w.ledgers|) && |w.ledgers| == |w.repos|
  {
    RoundActions(idOf, stamp, w, first, listing) +
    RoundActions(idOf, stamp, Round(idOf, stamp, w, first, listing), second, listing)
  }

  lemma TwoRoundsRun<E(!new)>(idOf: E -> string, stamp: E -> E, w: World<E>, first: seq<nat>, second: seq<nat>,
                              listing: seq<E> -> seq<E>)
    requires Sound(idOf, w) && Stamps(idOf, stamp, w) && Complete(listing)
    requires Machines(first, |w.ledgers|) && Machines(second, |w.ledgers|)
    ensures var run := TwoRoundActions(idOf, stamp, w, first, second, listing);
            var v := TwoRounds(idOf, stamp, w, first, second, listing);
            CanRun(idOf, stamp, w, run) && After(idOf, stamp, w, run) == v && Sound(idOf, v)
  {
    var u := Round(idOf, stamp, w, first, listing);
    ServerRoundRuns(idOf, stamp, w, first, listing);
    ServerRoundRuns(idOf, stamp, u, second, listing);
    RunConcat(idOf, stamp, w, RoundActions(idOf, stamp, w, first, listing),
              RoundActions(idOf, stamp, u, second, listing));
  }

  lemma EveryoneVisited(order: seq<nat>, n: nat)
    requires Visits(order, n)
    ensures forall k: nat :: k < n ==> k in Visited(order)
  {
    forall k: nat | k < n ensures k in Visited(order) {
      VisitedMembers(order, k);
    }
  }

  lemma RoundSteady<E(!new)>(idOf: E -> string, stamp: E -> E, w: World<E>, order: seq<nat>, listing: seq<E> -> seq<E>)
    requires Steady(idOf, stamp, w) && Complete(listing) && Machines(order, |w.ledgers|)
    ensures var u := Round(idOf, stamp, w, order, listing);
            Steady(idOf, stamp, u) && Gathered(idOf, stamp, u) == Gathered(idOf, stamp, w)
  {
    ServerRoundRuns(idOf, stamp, w, order, listing);
    SameGathered(idOf, stamp, w, Round(idOf, stamp, w, order, listing));
  }

  /** After the first round the server has everything. */
  lemma FirstRoundServes<E(!new)>(idOf: E -> string, stamp: E -> E, w: World<E>, first: seq<nat>,
                                  listing: seq<E> -> seq<E>)
    requires Steady(idOf, stamp, w) && Complete(listing) && Visits(first, |w.ledgers|)
    ensures var u := Round(idOf, stamp, w, first, listing);
            && Steady(idOf, stamp, u) && ServesPool(idOf, stamp, u)
            && Gathered(idOf, stamp, u) == Gathered(idOf, stamp, w)
  {
    var u, all := Round(idOf, stamp, w, first, listing), Visited(first);
    RoundSteady(idOf, stamp, w, first, listing);
    EveryoneVisited(first, |u.ledgers|);
    RoundStores(idOf, stamp, w, first, listing, {});
    assert {} + all == all;
    StoredPool(idOf, stamp, u, all);
  }

  lemma RoundsGather<E(!new)>(idOf: E -> string, stamp: E -> E, w: World<E>, first: seq<nat>, second: seq<nat>,
                              listing: seq<E> -> seq<E>)
    requires Steady(idOf, stamp, w) && Complete(listing)
    requires Visits(first, |w.ledgers|) && Visits(second, |w.ledgers|)
    ensures var v := TwoRounds(idOf, stamp, w, first, second, listing);
            forall m :: 0 <= m < |v.ledgers| ==> v.ledgers[m] == Gathered(idOf, stamp, w)
  {
    FirstRoundServes(idOf, stamp, w, first, listing);
    var u := Round(idOf, stamp, w, first, listing);
    RoundGathers(idOf, stamp, u, second, listing, Gathered(idOf, stamp, w), {});
    EveryoneVisited(second, |w.ledgers|);
  }

  /** Two rounds in which every machine pushes everything and fetches everything make every company ledger hold all of
      the pool exactly when ids tell it apart; all of them are then the same list, the union of everything. */
  lemma ServerRoundsConvergeIff<E(!new)>(idOf: E -> string, stamp: E -> E, w: World<E>, first: seq<nat>,
                                         second: seq<nat>, listing: seq<E> -> seq<E>)
    requires Sound(idOf, w) && Stamps(idOf, stamp, w) && Complete(listing) && |w.ledgers| > 0
    requires Visits(first, |w.ledgers|) && Visits(second, |w.ledgers|)
    ensures var run := TwoRoundActions(idOf, stamp, w, first, second, listing);
            && CanRun(idOf, stamp, w, run)
            && var v := After(idOf, stamp, w, run);
               && |v.ledgers| == |w.ledgers|
               && (AllHold(idOf, stamp, w, v) <==> PoolTold(idOf, stamp, w))
               && (PoolTold(idOf, stamp, w) ==>
                    forall m :: 0 <= m < |v.ledgers| ==> v.ledgers[m] == Gathered(idOf, stamp, w))
  {
    TwoRoundsRun(idOf, stamp, w, first, second, listing);
    var v := TwoRounds(idOf, stamp, w, first, second, listing);
    if PoolTold(idOf, stamp, w) {
      RoundsGather(idOf, stamp, w, first, second, listing);
      GatheredHolds(idOf, stamp, w);
    }
    if AllHold(idOf, stamp, w, v) {
      HeldTold(idOf, stamp, w, v);
    }
  }

  // ---- Worlds that runs reach ----------------------------------------------------------------

  /** Rows are stamped in every reachable world. */
  lemma {:induction false} RunStamps<E(!new)>(idOf: E -> string, stamp: E -> E, w: World<E>, run: seq<Action<E>>)
    requires Stamps(idOf, stamp, w) && CanRun(idOf, stamp, w, run)
    ensures Stamps(idOf, stamp, After(idOf, stamp, w, run))
    decreases |run|
  {
    if run != [] {
      RunStamps(idOf, stamp, Step(idOf, stamp, w, run[0]), run[1..]);
    }
  }

  /** Where stamping changes no local event, the pool is what is local, and ids tell it apart. */
  lemma NamedPool<E(!new)>(idOf: E -> string, stamp: E -> E, w: World<E>)
    requires Inv(idOf, w) && AllNamed(stamp, w)
    ensures forall x :: Pool(idOf, stamp, w, x) <==> Local(w, x)
    ensures PoolTold(idOf, stamp, w) && Gathered(idOf, stamp, w) == Union(idOf, w.ledgers + w.repos)
  {
    var es := Flatten(w.ledgers + w.repos);
    forall x ensures x in es <==> Local(w, x) {
      FlattenMembers(w.ledgers + w.repos, x);
      LocalIndex(w, x);
    }
    PoolDetermines(idOf, stamp, w);
    forall x | idOf(x) != "" ensures x in Flatten(Streams(stamp, w)) <==> x in es {
      StreamsHoldPool(idOf, stamp, w, x);
    }
    UnionCanonical(idOf, Streams(stamp, w), w.ledgers + w.repos);
  }

  lemma LocalIndex<E>(w: World<E>, x: E)
    ensures Local(w, x) <==> exists i :: 0 <= i < |w.ledgers + w.repos| && x in (w.ledgers + w.repos)[i]
  {
    var all := w.ledgers + w.repos;
    if i :| 0 <= i < |w.repos| && x in w.repos[i] {
      assert all[|w.ledgers| + i] == w.repos[i];
    }
    if i :| 0 <= i < |w.ledgers| && x in w.ledgers[i] {
      assert all[i] == w.ledgers[i];
    }
  }
}
