/** What two rounds of complete syncs achieve, and exactly when. */
module LedgerConvergence {
  import opened Text
  import opened Sorting
  import opened FirstWins
  import opened LedgerSync

  /** Ids tell the events of all company ledgers apart. */
  ghost predicate CompanyTold<E(!new)>(idOf: E -> string, w: World<E>) {
    forall e, f :: InCompany(w, e) && InCompany(w, f) && idOf(e) == idOf(f) ==> e == f
  }

  ghost predicate Settled<E(!new)>(idOf: E -> string, w: World<E>) {
    Sound(idOf, w) && CompanyTold(idOf, w)
  }

  ghost predicate Quiet<E>(w: World<E>) {
    forall m :: 0 <= m < |w.phases| ==> w.phases[m].Idle?
  }

  /** One successful sync of machine `m` that is not `--pull-only`, with nothing in between. */
  function FullSync<E>(m: nat): seq<Action<E>> {
    [Get(m, true), Merge(m, false), Put(m, true)]
  }

  /** Syncs one after the other, in the given order of machines. */
  function Syncs<E>(order: seq<nat>): seq<Action<E>> {
    if order == [] then [] else FullSync(order[0]) + Syncs(order[1..])
  }

  /** The net effect of one full sync. */
  function Synced<E(==)>(idOf: E -> string, w: World<E>, m: nat): World<E>
    requires m < |w.ledgers|
  {
    var merged := Union(idOf, [w.ledgers[m], w.shared.GetOr([])]);
    w.(ledgers := w.ledgers[m := merged], shared := Some(merged))
  }

  lemma FullSyncEffect<E(!new)>(idOf: E -> string, stamp: E -> E, w: World<E>, m: nat)
    requires Sound(idOf, w) && Quiet(w) && m < |w.ledgers|
    ensures CanRun(idOf, stamp, w, FullSync(m))
    ensures After(idOf, stamp, w, FullSync(m)) == Synced(idOf, w, m)
  {
    var run: seq<Action<E>> := FullSync(m);
    var w1 := Step(idOf, stamp, w, run[0]);
    var w2 := Step(idOf, stamp, w1, run[1]);
    var w3 := Step(idOf, stamp, w2, run[2]);
    assert run[1..][0] == run[1] && run[1..][1..] == [run[2]] && [run[2]][1..] == [];
    assert w3.phases == w.phases;
    assert After(idOf, stamp, w3, []) == w3;
    assert After(idOf, stamp, w2, [run[2]]) == w3;
    assert After(idOf, stamp, w1, run[1..]) == w3;
  }

  lemma {:induction false} RunConcat<E>(idOf: E -> string, stamp: E -> E, w: World<E>,
                                        a: seq<Action<E>>, b: seq<Action<E>>)
    requires CanRun(idOf, stamp, w, a) && CanRun(idOf, stamp, After(idOf, stamp, w, a), b)
    ensures CanRun(idOf, stamp, w, a + b)
    ensures After(idOf, stamp, w, a + b) == After(idOf, stamp, After(idOf, stamp, w, a), b)
    decreases |a|
  {
    if a == [] {
      assert a + b == b;
    } else {
      RunConcat(idOf, stamp, Step(idOf, stamp, w, a[0]), a[1..], b);
      assert (a + b)[1..] == a[1..] + b;
    }
  }

  /** A merge of a ledger with the object holds exactly both. */
  lemma MergeMembers<E(!new)>(idOf: E -> string, w: World<E>, m: nat, more: seq<E>)
    requires Settled(idOf, w) && m < |w.ledgers| && OnlyCompany(w, more)
    ensures IdsDetermine(idOf, Flatten([w.ledgers[m], more]))
    ensures forall e :: e in Union(idOf, [w.ledgers[m], more]) <==> e in w.ledgers[m] || e in more
  {
    FlattenPair(w.ledgers[m], more);
    forall e | e in w.ledgers[m] + more ensures InCompany(w, e) && idOf(e) != "" {
      if e in w.ledgers[m] { assert InCompany(w, e); }
      var k :| 0 <= k < |w.ledgers| && e in w.ledgers[k];
      assert Tidy(idOf, w.ledgers[k]);
    }
    UnionMembers(idOf, [w.ledgers[m], more]);
  }

  /** The shared object holds everything in the ledgers of the machines in `ms`. */
  ghost predicate Covers<E(!new)>(w: World<E>, ms: set<nat>) {
    forall m, e :: m in ms && m < |w.ledgers| && e in w.ledgers[m] ==> e in w.shared.GetOr([])
  }

  ghost predicate SameCompany<E(!new)>(w: World<E>, v: World<E>) {
    forall e :: InCompany(w, e) <==> InCompany(v, e)
  }

  /** The union of all company ledgers, as a sorted list. */
  function Everything<E>(idOf: E -> string, w: World<E>): seq<E> {
    Union(idOf, w.ledgers)
  }

  lemma LedgersFlat<E(!new)>(w: World<E>)
    ensures forall e :: e in Flatten(w.ledgers) <==> InCompany(w, e)
  {
    forall e ensures e in Flatten(w.ledgers) <==> InCompany(w, e) {
      FlattenMembers(w.ledgers, e);
    }
  }

  /** One sync keeps the invariant and the set of company events, and covers one more machine. */
  lemma SyncedCovers<E(!new)>(idOf: E -> string, stamp: E -> E, w: World<E>, m: nat, ms: set<nat>)
    requires Settled(idOf, w) && Quiet(w) && m < |w.ledgers| && Covers(w, ms)
    ensures var v := Synced(idOf, w, m);
            Settled(idOf, v) && Quiet(v) && SameCompany(w, v) && Covers(v, ms + {m})
  {
    var object_ := w.shared.GetOr([]);
    var v := Synced(idOf, w, m);
    FullSyncEffect(idOf, stamp, w, m);
    RunSound(idOf, stamp, w, FullSync(m));
    KeepsLocal(w, v);
    MergeMembers(idOf, w, m, object_);
    forall e | InCompany(v, e) ensures InCompany(w, e) {
      var k :| 0 <= k < |v.ledgers| && e in v.ledgers[k];
      if k == m { assert e in w.ledgers[m] || e in object_; } else { assert e in w.ledgers[k]; }
    }
  }

  /** Once the object covers every machine, a sync brings a ledger to the union of all of them. */
  lemma SyncedCatchesUp<E(!new)>(idOf: E -> string, w: World<E>, m: nat, all: set<nat>)
    requires Settled(idOf, w) && m < |w.ledgers| && Covers(w, all)
    requires forall k: nat :: k < |w.ledgers| ==> k in all
    ensures Synced(idOf, w, m).ledgers[m] == Everything(idOf, w)
  {
    var object_ := w.shared.GetOr([]);
    MergeMembers(idOf, w, m, object_);
    LedgersFlat(w);
    FlattenPair(w.ledgers[m], object_);
    forall e ensures e in w.ledgers[m] + object_ <==> e in Flatten(w.ledgers) {
      if InCompany(w, e) {
        var k :| 0 <= k < |w.ledgers| && e in w.ledgers[k];
      }
      if e in w.ledgers[m] { assert InCompany(w, e); }
    }
    UnionCanonical(idOf, [w.ledgers[m], object_], w.ledgers);
  }

  lemma SameEverything<E(!new)>(idOf: E -> string, w: World<E>, v: World<E>)
    requires Settled(idOf, w) && SameCompany(w, v)
    ensures Everything(idOf, v) == Everything(idOf, w)
  {
    LedgersFlat(w);
    LedgersFlat(v);
    UnionCanonical(idOf, w.ledgers, v.ledgers);
  }

  ghost predicate Machines(order: seq<nat>, n: nat) {
    forall i :: 0 <= i < |order| ==> order[i] < n
  }

  ghost predicate Visits(order: seq<nat>, n: nat) {
    Machines(order, n) && forall m: nat :: m < n ==> m in order
  }

  function Visited(order: seq<nat>): set<nat> {
    if order == [] then {} else {order[0]} + Visited(order[1..])
  }

  lemma {:induction false} VisitedMembers(order: seq<nat>, m: nat)
    ensures m in order <==> m in Visited(order)
  {
    if order != [] {
      VisitedMembers(order[1..], m);
      assert order == [order[0]] + order[1..];
    }
  }

  /** First round: the object comes to hold every event of every visited machine. */
  lemma {:induction false} RoundCovers<E(!new)>(idOf: E -> string, stamp: E -> E, w: World<E>,
                                                order: seq<nat>, ms: set<nat>)
    requires Settled(idOf, w) && Quiet(w) && Machines(order, |w.ledgers|) && Covers(w, ms)
    ensures CanRun(idOf, stamp, w, Syncs(order))
    ensures var v := After(idOf, stamp, w, Syncs(order));
            && Settled(idOf, v) && Quiet(v) && SameCompany(w, v) && |v.ledgers| == |w.ledgers|
            && Covers(v, ms + Visited(order))
    decreases |order|
  {
    if order == [] {
      assert ms + Visited(order) == ms;
    } else {
      var m, rest := order[0], order[1..];
      FullSyncEffect(idOf, stamp, w, m);
      SyncedCovers(idOf, stamp, w, m, ms);
      RoundCovers(idOf, stamp, Synced(idOf, w, m), rest, ms + {m});
      RunConcat(idOf, stamp, w, FullSync(m), Syncs(rest));
      assert (ms + {m}) + Visited(rest) == ms + Visited(order);
    }
  }

  /** The world between two syncs of the second round. */
  ghost predicate Ready<E(!new)>(idOf: E -> string, w: World<E>, all: set<nat>, goal: seq<E>) {
    && Settled(idOf, w) && Quiet(w) && Covers(w, all)
    && (forall k: nat :: k < |w.ledgers| ==> k in all)
    && goal == Everything(idOf, w)
  }

  /** The machines in `done` hold the goal, and so does the object after the first of them. */
  ghost predicate CaughtUp<E>(w: World<E>, goal: seq<E>, done: set<nat>) {
    && (forall k: nat :: k in done && k < |w.ledgers| ==> w.ledgers[k] == goal)
    && (done != {} ==> w.shared == Some(goal))
  }

  lemma CatchUpStep<E(!new)>(idOf: E -> string, stamp: E -> E, w: World<E>, m: nat, all: set<nat>,
                             goal: seq<E>, done: set<nat>)
    requires Ready(idOf, w, all, goal) && CaughtUp(w, goal, done) && m < |w.ledgers|
    ensures var v := Synced(idOf, w, m);
            Ready(idOf, v, all + {m}, goal) && CaughtUp(v, goal, done + {m}) && |v.ledgers| == |w.ledgers|
  {
    SyncedCovers(idOf, stamp, w, m, all);
    SyncedCatchesUp(idOf, w, m, all);
    SameEverything(idOf, w, Synced(idOf, w, m));
  }

  /** Second round: every visited machine ends with the same list, and so does the object. */
  lemma {:induction false} RoundCatchesUp<E(!new)>(idOf: E -> string, stamp: E -> E, w: World<E>, order: seq<nat>,
                                                   all: set<nat>, goal: seq<E>, done: set<nat>)
    requires Ready(idOf, w, all, goal) && CaughtUp(w, goal, done) && Machines(order, |w.ledgers|)
    ensures CanRun(idOf, stamp, w, Syncs(order))
    ensures var v := After(idOf, stamp, w, Syncs(order));
            |v.ledgers| == |w.ledgers| && CaughtUp(v, goal, done + Visited(order))
    decreases |order|
  {
    if order == [] {
      assert done + Visited(order) == done;
    } else {
      var m, rest := order[0], order[1..];
      FullSyncEffect(idOf, stamp, w, m);
      CatchUpStep(idOf, stamp, w, m, all, goal, done);
      RoundCatchesUp(idOf, stamp, Synced(idOf, w, m), rest, all + {m}, goal, done + {m});
      RunConcat(idOf, stamp, w, FullSync(m), Syncs(rest));
      assert (done + {m}) + Visited(rest) == done + Visited(order);
    }
  }

  lemma EveryoneCaughtUp<E>(w: World<E>, goal: seq<E>, order: seq<nat>)
    requires CaughtUp(w, goal, Visited(order)) && Visits(order, |w.ledgers|)
    ensures forall m: nat :: m < |w.ledgers| ==> w.ledgers[m] == goal
    ensures |w.ledgers| > 0 ==> w.shared == Some(goal)
  {
    forall m: nat | m < |w.ledgers| ensures m in Visited(order) {
      VisitedMembers(order, m);
    }
    assert |w.ledgers| > 0 ==> 0 in Visited(order);
  }

  /** Convergence: from any reachable quiet world, any order of syncs that visits every machine, followed
      by any order that visits every machine again, leaves all company ledgers and the object with the
      same list: the union of what the ledgers held before. */
  lemma TwoRoundsConverge<E(!new)>(idOf: E -> string, stamp: E -> E, w: World<E>, first: seq<nat>, second: seq<nat>)
    requires Settled(idOf, w) && Quiet(w)
    requires Visits(first, |w.ledgers|) && Visits(second, |w.ledgers|)
    ensures CanRun(idOf, stamp, w, Syncs(first) + Syncs(second))
    ensures var v := After(idOf, stamp, w, Syncs(first) + Syncs(second));
            && |v.ledgers| == |w.ledgers|
            && (forall m: nat :: m < |v.ledgers| ==> v.ledgers[m] == Everything(idOf, w))
            && (|w.ledgers| > 0 ==> v.shared == Some(Everything(idOf, w)))
  {
    RoundCovers(idOf, stamp, w, first, {});
    var u := After(idOf, stamp, w, Syncs(first));
    var all := Visited(first);
    assert {} + all == all;
    forall k: nat | k < |u.ledgers| ensures k in all {
      VisitedMembers(first, k);
    }
    SameEverything(idOf, w, u);
    RoundCatchesUp(idOf, stamp, u, second, all, Everything(idOf, w), {});
    RunConcat(idOf, stamp, w, Syncs(first), Syncs(second));
    assert {} + Visited(second) == Visited(second);
    EveryoneCaughtUp(After(idOf, stamp, u, Syncs(second)), Everything(idOf, w), second);
  }

  // ---- Exactly when the rounds converge ---------------------------------------------------

  lemma {:induction false} RoundRuns<E(!new)>(idOf: E -> string, stamp: E -> E, w: World<E>, order: seq<nat>)
    requires Sound(idOf, w) && Quiet(w) && Machines(order, |w.ledgers|)
    ensures CanRun(idOf, stamp, w, Syncs(order)) && Quiet(After(idOf, stamp, w, Syncs(order)))
    decreases |order|
  {
    if order != [] {
      FullSyncEffect(idOf, stamp, w, order[0]);
      RunSound(idOf, stamp, w, FullSync(order[0]));
      RoundRuns(idOf, stamp, Synced(idOf, w, order[0]), order[1..]);
      RunConcat(idOf, stamp, w, FullSync(order[0]), Syncs(order[1..]));
    }
  }

  ghost predicate AllAlike<E>(w: World<E>) {
    forall m, k :: 0 <= m < |w.ledgers| && 0 <= k < |w.ledgers| ==> w.ledgers[m] == w.ledgers[k]
  }

  /** Two ledgers that hold different events under one id never become the same, whatever is run. */
  lemma ClashNeverHeals<E(!new)>(idOf: E -> string, stamp: E -> E, w: World<E>, run: seq<Action<E>>)
    requires Sound(idOf, w) && CanRun(idOf, stamp, w, run) && !CompanyTold(idOf, w)
    ensures !AllAlike(After(idOf, stamp, w, run))
  {
    var e, f :| InCompany(w, e) && InCompany(w, f) && idOf(e) == idOf(f) && e != f;
    var m :| 0 <= m < |w.ledgers| && e in w.ledgers[m];
    var k :| 0 <= k < |w.ledgers| && f in w.ledgers[k];
    RunSound(idOf, stamp, w, run);
    var v := After(idOf, stamp, w, run);
    assert e in v.ledgers[m] && f in v.ledgers[k];
    assert Tidy(idOf, v.ledgers[m]);
  }

  /** Two rounds of full syncs make all company ledgers the same exactly when ids tell their events apart. */
  lemma RoundsConvergeIff<E(!new)>(idOf: E -> string, stamp: E -> E, w: World<E>, first: seq<nat>, second: seq<nat>)
    requires Sound(idOf, w) && Quiet(w)
    requires Visits(first, |w.ledgers|) && Visits(second, |w.ledgers|)
    ensures CanRun(idOf, stamp, w, Syncs(first) + Syncs(second))
    ensures AllAlike(After(idOf, stamp, w, Syncs(first) + Syncs(second))) <==> CompanyTold(idOf, w)
  {
    if CompanyTold(idOf, w) {
      TwoRoundsConverge(idOf, stamp, w, first, second);
    } else {
      RoundRuns(idOf, stamp, w, first);
      RunSound(idOf, stamp, w, Syncs(first));
      RoundRuns(idOf, stamp, After(idOf, stamp, w, Syncs(first)), second);
      RunConcat(idOf, stamp, w, Syncs(first), Syncs(second));
      ClashNeverHeals(idOf, stamp, w, Syncs(first) + Syncs(second));
    }
  }

  // ---- A stamped copy that comes back ---------------------------------------------------

  /** One machine records and pushes an event, another one fetches the stored copy. */
  function CopyRun<E>(e: E, copy: E): seq<Action<E>> {
    [Record(0, e, false), Push(0, e, true), Fetch(1, Some([copy]))]
  }

  lemma CopyRunEffect<E(!new)>(idOf: E -> string, stamp: E -> E, e: E)
    requires idOf(e) != "" && idOf(stamp(e)) == idOf(e)
    ensures CanRun(idOf, stamp, Start(2), CopyRun(e, stamp(e)))
    ensures var v := After(idOf, stamp, Start(2), CopyRun(e, stamp(e)));
            v.ledgers == [[e], [stamp(e)]] && v.shared.None? && Quiet(v)
  {
    var run := CopyRun(e, stamp(e));
    var w1 := Step(idOf, stamp, Start(2), run[0]);
    assert w1.ledgers[0] == [] + [e] == [e] && w1.ledgers[1] == [];
    assert w1.ledgers == [[e], []];
    var w2 := Step(idOf, stamp, w1, run[1]);
    assert [stamp(e)][0] in w2.server;
    var w3 := Step(idOf, stamp, w2, run[2]);
    UnionOfOne(idOf, stamp(e));
    assert w3.ledgers == [[e], [stamp(e)]];
    assert run[1..][1..] == [run[2]] && run[1..][0] == run[1] && [run[2]][1..] == [];
    assert CanRun(idOf, stamp, w3, []) && After(idOf, stamp, w3, []) == w3;
    assert CanRun(idOf, stamp, w2, [run[2]]) && After(idOf, stamp, w2, [run[2]]) == w3;
    assert CanRun(idOf, stamp, w1, run[1..]) && After(idOf, stamp, w1, run[1..]) == w3;
  }

  lemma UnionOfOne<E>(idOf: E -> string, e: E)
    requires idOf(e) != ""
    ensures Union(idOf, [[], [e]]) == [e]
  {
    FlattenPair([], [e]);
    assert [] + [e] == [e];
    FirstsSnoc(idOf, [], e);
    assert Firsts(idOf, []) == [];
    assert SortBy([e], ByIdKey(idOf)) == [e] by { assert [e][1..] == []; }
  }

  /** The original and its copy then never meet: each machine keeps its own and not the other's, for good. */
  lemma StampedCopyNeverConverges<E(!new)>(idOf: E -> string, stamp: E -> E, e: E, more: seq<Action<E>>)
    requires idOf(e) != "" && idOf(stamp(e)) == idOf(e) && stamp(e) != e
    requires CanRun(idOf, stamp, Start(2), CopyRun(e, stamp(e)))
    requires CanRun(idOf, stamp, After(idOf, stamp, Start(2), CopyRun(e, stamp(e))), more)
    ensures var v := After(idOf, stamp, After(idOf, stamp, Start(2), CopyRun(e, stamp(e))), more);
            && |v.ledgers| == 2 && !AllAlike(v)
            && e in v.ledgers[0] && stamp(e) !in v.ledgers[0]
            && stamp(e) in v.ledgers[1] && e !in v.ledgers[1]
  {
    CopyRunEffect(idOf, stamp, e);
    var w := After(idOf, stamp, Start(2), CopyRun(e, stamp(e)));
    StartSound(idOf, 2);
    RunSound(idOf, stamp, Start(2), CopyRun(e, stamp(e)));
    RunSound(idOf, stamp, w, more);
    var v := After(idOf, stamp, w, more);
    assert e in w.ledgers[0] && stamp(e) in w.ledgers[1];
    assert Tidy(idOf, v.ledgers[0]) && Tidy(idOf, v.ledgers[1]);
  }
}
