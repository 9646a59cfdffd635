/** What a mirror run leaves and counts, and how long the loop waits (src/canon_systems/vault_sync.py). */
module VaultReading {
  import opened Text
  import opened Sorting
  import opened Delimited
  import opened MapAlgebra
  import opened VaultTree
  import opened VaultSync
  import opened VaultMirror

  // ---- One run ------------------------------------------------------------------------------

  /** The remote tells the page's hash, and it is that of the file on disk. */
  predicate SameHash(files: map<Path, Bytes>, r: Remote, k: Path)
    requires k in r.pages
  {
    match r.pages[k].head
    case HeadHash(h) => h != "" && k in files && r.hash(files[k]) == h
    case HeadRaises => false
  }

  predicate HeadKnown(r: Remote, k: Path)
    requires k in r.pages
  {
    r.pages[k].head.HeadHash?
  }

  /** A file stays where the hashes agree and is the page's body elsewhere; every page is known. */
  ghost predicate Mirrors(files0: map<Path, Bytes>, files: map<Path, Bytes>, r: Remote)
    requires r.Ok()
  {
    && (forall k :: k in files <==> k in r.listing)
    && forall k :: k in r.listing ==>
         && HeadKnown(r, k)
         && if SameHash(files0, r, k) then files[k] == files0[k] else r.pages[k].body == Body(files[k])
  }

  lemma MirrorReads(files0: map<Path, Bytes>, files: map<Path, Bytes>, r: Remote)
    requires r.Ok()
    ensures IsMirror(files0, files, r) <==> Mirrors(files0, files, r)
  {
    forall k | k in r.listing
      ensures NeedsPull(files0, r, k) <==> !SameHash(files0, r, k)
      ensures Readable(files0, r, k) <==> HeadKnown(r, k) && (SameHash(files0, r, k) || r.pages[k].body.Body?)
    {
    }
    assert files.Keys == r.Keys() <==> forall k :: k in files <==> k in r.listing;
  }

  /** The run can read all it needs: every page's metadata, and the bodies of pages whose hashes do not agree. */
  lemma AllReadableReads(files: map<Path, Bytes>, r: Remote)
    requires r.Ok()
    ensures AllReadable(files, r) <==>
            forall k :: k in r.listing ==> HeadKnown(r, k) && (SameHash(files, r, k) || r.pages[k].body.Body?)
  {
    forall k | k in r.listing
      ensures Readable(files, r, k) <==> HeadKnown(r, k) && (SameHash(files, r, k) || r.pages[k].body.Body?)
    {
    }
    assert forall k :: k in r.Keys() <==> k in r.listing;
  }

  // ---- A run that fails -----------------------------------------------------------------------

  /** The text of a path: its components joined by slashes. */
  lemma {:induction false} PosixReads(p: Path)
    ensures Posix(p) == Join(p, '/')
  {
    if |p| > 1 {
      PosixReads(p[1..]);
    }
  }

  /** Pages are taken once each, in the order of their path texts. */
  lemma OrderReads(r: Remote)
    ensures forall k :: k in SortedKeys(r) <==> k in r.listing
    ensures forall i, j :: 0 <= i < j < |SortedKeys(r)| ==>
              SortedKeys(r)[i] != SortedKeys(r)[j] && Le(Join(SortedKeys(r)[i], '/'), Join(SortedKeys(r)[j], '/'))
  {
    var order := SortedKeys(r);
    SortedKeysMembers(r);
    SortLaws(Distinct(r.listing), PathKey);
    forall i, j | 0 <= i < j < |order| ensures Le(Join(order[i], '/'), Join(order[j], '/')) {
      PosixReads(order[i]);
      PosixReads(order[j]);
      PathOrder(order[i], order[j]);
    }
  }

  lemma PathOrder(p: Path, q: Path)
    requires KeyLe(PathKey(p), PathKey(q))
    ensures Le(Posix(p), Posix(q))
  {
    LeTotal(Posix(p), Posix(p));
    assert PathKey(p)[0] == Codes(Posix(p)) && PathKey(q)[0] == Codes(Posix(q));
  }

  /** One page as a run that reached it leaves it. */
  ghost predicate Reached(files0: map<Path, Bytes>, files: map<Path, Bytes>, r: Remote, k: Path)
    requires k in r.pages
  {
    && k in files && HeadKnown(r, k)
    && if SameHash(files0, r, k) then files[k] == files0[k] else r.pages[k].body == Body(files[k])
  }

  /** One path as it was. */
  ghost predicate AsBefore(files0: map<Path, Bytes>, files: map<Path, Bytes>, k: Path) {
    (k in files <==> k in files0) && (k in files ==> files[k] == files0[k])
  }

  /** A failed run has removed the unlisted files, mirrored the pages before the one it failed at and left the rest. */
  lemma PartialReads(files0: map<Path, Bytes>, files: map<Path, Bytes>, r: Remote, n: nat, out: Outcome)
    requires r.Ok() && IsPartial(files0, files, r, n, out)
    ensures n < |SortedKeys(r)| && forall k :: k in files ==> k in r.listing
    ensures forall i :: 0 <= i < n ==> SortedKeys(r)[i] in r.pages && Reached(files0, files, r, SortedKeys(r)[i])
    ensures forall i :: n <= i < |SortedKeys(r)| ==> AsBefore(files0, files, SortedKeys(r)[i])
    ensures out.ReaderFailed? ==>
              var k := SortedKeys(r)[n];
              k in r.pages && !(HeadKnown(r, k) && (SameHash(files0, r, k) || r.pages[k].body.Body?))
  {
    var order := SortedKeys(r);
    OrderLaws(r);
    SortedKeysMembers(r);
    forall i | 0 <= i < n ensures order[i] in r.pages && Reached(files0, files, r, order[i]) {
      assert order[i] in Taken(order, n);
    }
    forall i | n <= i < |order| ensures AsBefore(files0, files, order[i]) {
      assert order[i] !in Taken(order, n);
      assert order[i] in order;
    }
  }

  // ---- Its counters -------------------------------------------------------------------------

  /** The files the remote does not list. */
  ghost function Stale(files: map<Path, Bytes>, r: Remote): set<Path> {
    set k | k in files && k !in r.listing
  }

  ghost function Unchanged(files: map<Path, Bytes>, r: Remote, among: set<Path>): set<Path>
    requires forall k :: k in among ==> k in r.pages
  {
    set k | k in among && SameHash(files, r, k)
  }

  /** The pages that are fetched: their hashes do not agree, and they have a body. */
  ghost function Fetched(files: map<Path, Bytes>, r: Remote, among: set<Path>): set<Path>
    requires forall k :: k in among ==> k in r.pages
  {
    set k | k in among && !SameHash(files, r, k) && r.pages[k].body.Body?
  }

  ghost function Sizes(files: map<Path, Bytes>, r: Remote, among: set<Path>): map<Path, int>
    requires forall k :: k in among ==> k in r.pages
  {
    map k | k in Fetched(files, r, among) :: |r.pages[k].body.bytes|
  }

  ghost predicate CountsAre(files: map<Path, Bytes>, r: Remote, among: set<Path>, deleted: nat, c: Counts)
    requires forall k :: k in among ==> k in r.pages
  {
    && c.deleted == deleted && c.skipped == |Unchanged(files, r, among)|
    && c.pulled == |Fetched(files, r, among)| && c.bytes == Sum(Sizes(files, r, among))
  }

  /** One more page fetched adds itself and the length of its body. */
  lemma FetchedStep(files: map<Path, Bytes>, r: Remote, among: set<Path>, k: Path)
    requires k in r.pages && forall j :: j in among ==> j in r.pages
    requires k !in among && !SameHash(files, r, k) && r.pages[k].body.Body?
    ensures Fetched(files, r, among + {k}) == Fetched(files, r, among) + {k}
    ensures Sum(Sizes(files, r, among + {k})) == Sum(Sizes(files, r, among)) + |r.pages[k].body.bytes|
  {
    var size := |r.pages[k].body.bytes|;
    assert Fetched(files, r, among + {k}) == Fetched(files, r, among) + {k};
    assert Sizes(files, r, among + {k}) == Sizes(files, r, among)[k := size];
    SumSet(Sizes(files, r, among), k, size);
  }

  lemma NotFetchedStep(files: map<Path, Bytes>, r: Remote, among: set<Path>, k: Path)
    requires k in r.pages && forall j :: j in among ==> j in r.pages
    requires k !in among && (SameHash(files, r, k) || !r.pages[k].body.Body?)
    ensures Fetched(files, r, among + {k}) == Fetched(files, r, among)
    ensures Sizes(files, r, among + {k}) == Sizes(files, r, among)
  {
    assert Fetched(files, r, among + {k}) == Fetched(files, r, among);
  }

  lemma UnchangedStep(files: map<Path, Bytes>, r: Remote, among: set<Path>, k: Path)
    requires k in r.pages && k !in among && forall j :: j in among ==> j in r.pages
    ensures Unchanged(files, r, among + {k}) == Unchanged(files, r, among) + if SameHash(files, r, k) then {k} else {}
  {
  }

  lemma CountsStep(files: map<Path, Bytes>, r: Remote, among: set<Path>, k: Path, deleted: nat, c: Counts)
    requires k in r.pages && forall j :: j in among ==> j in r.pages
    requires k !in among && CountsAre(files, r, among, deleted, c)
    ensures CountsAre(files, r, among + {k}, deleted, Counted(files, r, k, c))
  {
    UnchangedStep(files, r, among, k);
    if !SameHash(files, r, k) && r.pages[k].body.Body? {
      FetchedStep(files, r, among, k);
    } else {
      NotFetchedStep(files, r, among, k);
    }
  }

  lemma {:induction false} TallyCounts(files: map<Path, Bytes>, r: Remote, order: seq<Path>, n: nat, deleted: nat)
    requires n <= |order| && AllNew(order) && forall i :: 0 <= i < |order| ==> order[i] in r.pages
    ensures CountsAre(files, r, Taken(order, n), deleted, Tally(files, r, order[..n], deleted))
  {
    if n == 0 {
      assert Taken(order, 0) == {};
    } else {
      var k := order[n - 1];
      TallyCounts(files, r, order, n - 1, deleted);
      assert Taken(order, n) == Taken(order, n - 1) + {k};
      assert k !in Taken(order, n - 1);
      TallyStep(files, r, order, n - 1, deleted);
      CountsStep(files, r, Taken(order, n - 1), k, deleted, Tally(files, r, order[..n - 1], deleted));
    }
  }

  /** A run counts the unlisted files as deleted, the pages whose hashes agree as skipped, and the others, with the
      length of their bodies, as pulled. */
  lemma CountsRead(files: map<Path, Bytes>, r: Remote)
    requires r.Ok()
    ensures CountsAre(files, r, r.Keys(), |Stale(files, r)|, Predicted(files, r))
  {
    OrderLaws(r);
    var order := SortedKeys(r);
    assert files.Keys - r.Keys() == Stale(files, r);
    TallyCounts(files, r, order, |order|, |Stale(files, r)|);
    assert order[..|order|] == order;
  }

  // ---- The loop's waits -----------------------------------------------------------------------

  /** The wait after tick `i`: the interval after a success; after a failure one second, doubled with each more in a
      row up to a minute. */
  predicate Waited(outcomes: seq<Outcome>, waits: seq<nat>, interval: nat, i: nat)
    requires i < |waits| <= |outcomes|
  {
    waits[i] == if outcomes[i].Done? then interval
                else if i == 0 || outcomes[i - 1].Done? then 1
                else if 2 * waits[i - 1] < 60 then 2 * waits[i - 1]
                else 60
  }

  lemma {:induction false} BackoffDoubles(fails: nat)
    requires fails > 0
    ensures Backoff(1) == 1 && 1 <= Backoff(fails) <= 60
    ensures Backoff(fails + 1) == if 2 * Backoff(fails) < 60 then 2 * Backoff(fails) else 60
  {
    assert Pow2(fails) == 2 * Pow2(fails - 1);
    assert Pow2(0) == 1;
    PowPositive(fails - 1);
  }

  lemma {:induction false} PowPositive(n: nat)
    ensures Pow2(n) >= 1
  {
    if n > 0 {
      PowPositive(n - 1);
    }
  }

  lemma {:induction false} WaitsAre(outcomes: seq<Outcome>, interval: nat)
    ensures |Waits(Oks(outcomes), interval)| == |outcomes|
    ensures forall i :: 0 <= i < |outcomes| ==> Waited(outcomes, Waits(Oks(outcomes), interval), interval, i)
  {
    if outcomes != [] {
      var n := |outcomes| - 1;
      var front, out := outcomes[..n], outcomes[n];
      assert outcomes == front + [out];
      WaitsAre(front, interval);
      WaitsSnoc(front, out, interval);
      var waits := Waits(Oks(outcomes), interval);
      forall i | 0 <= i < n ensures Waited(outcomes, waits, interval, i) {
        assert Waited(front, Waits(Oks(front), interval), interval, i);
      }
      if !out.Done? {
        LastWait(front, interval);
      }
    }
  }

  /** The backoff after one more failure, from the last tick and its wait. */
  lemma LastWait(front: seq<Outcome>, interval: nat)
    requires |Waits(Oks(front), interval)| == |front|
    ensures var next := Backoff(TrailingFailures(Oks(front)) + 1);
            next == if front == [] || front[|front| - 1].Done? then 1
                    else
                      var last := Waits(Oks(front), interval)[|front| - 1];
                      if 2 * last < 60 then 2 * last else 60
  {
    BackoffDoubles(1);
    if front != [] {
      var before, out := front[..|front| - 1], front[|front| - 1];
      assert front == before + [out];
      OksSnoc(before, out);
      WaitsSnoc(before, out, interval);
      if !out.Done? {
        BackoffDoubles(TrailingFailures(Oks(front)));
      }
    }
  }

  /** However the loop ended, it waited so after every tick but one that ended it. */
  lemma LoopWaits(outcomes: seq<Outcome>, waits: seq<nat>, interval: nat, end: LoopEnd)
    requires Ended(outcomes, waits, interval, end)
    ensures |waits| == |outcomes| - if end.Ongoing? then 0 else 1
    ensures forall i :: 0 <= i < |waits| ==> Waited(outcomes, waits, interval, i)
  {
    if end.Ongoing? {
      WaitsAre(outcomes, interval);
    } else {
      var front := outcomes[..|outcomes| - 1];
      WaitsAre(front, interval);
      forall i | 0 <= i < |waits| ensures Waited(outcomes, waits, interval, i) {
        assert Waited(front, waits, interval, i);
      }
    }
  }

  /** One of the 1025 ticks from the `i`-th on succeeds. */
  ghost predicate SucceedsWithin(outcomes: seq<Outcome>, i: nat) {
    exists j :: i <= j < i + 1025 && j < |outcomes| && outcomes[j].Done?
  }

  /** No 1025 ticks in a row fail among the first `n`. */
  ghost predicate NoLongOutage(outcomes: seq<Outcome>, n: nat) {
    forall i: nat {:trigger SucceedsWithin(outcomes, i)} :: i + 1025 <= n ==> SucceedsWithin(outcomes, i)
  }

  lemma SurvivedReads(outcomes: seq<Outcome>)
    requires Survived(outcomes)
    ensures (forall i :: 0 <= i < |outcomes| ==> !outcomes[i].Clash?) && NoLongOutage(outcomes, |outcomes|)
  {
    SurvivedIff(outcomes);
    forall i: nat | i + 1025 <= |outcomes| ensures SucceedsWithin(outcomes, i) {
      assert !FailsFrom(outcomes, i);
    }
  }

  /** The loop goes on until its first clash or the first time 1025 ticks in a row have failed. */
  lemma LoopEndReads(outcomes: seq<Outcome>, waits: seq<nat>, interval: nat, end: LoopEnd)
    requires Ended(outcomes, waits, interval, end)
    ensures end.Crashed? <==> exists i :: 0 <= i < |outcomes| && outcomes[i].Clash?
    ensures end.Crashed? ==> outcomes != [] && outcomes[|outcomes| - 1].Clash?
    ensures end.Overflowed? ==>
              |outcomes| >= 1025 && forall i :: |outcomes| - 1025 <= i < |outcomes| ==> !outcomes[i].Done?
    ensures NoLongOutage(outcomes, if end.Ongoing? then |outcomes| else |outcomes| - 1)
  {
    if end.Ongoing? {
      SurvivedReads(outcomes);
    } else {
      var front := outcomes[..|outcomes| - 1];
      SurvivedReads(front);
      assert forall i :: 0 <= i < |front| ==> front[i] == outcomes[i];
      forall i: nat | i + 1025 <= |front| ensures SucceedsWithin(outcomes, i) {
        assert SucceedsWithin(front, i);
      }
      if end.Overflowed? {
        TrailFails(outcomes, 1025);
      }
    }
  }
}
