/** One mirror run end to end, its dry run, and the service loop (src/canon_systems/vault_sync.py). */
module VaultMirror {
  import opened Text
  import opened VaultTree
  import opened VaultSync

  ghost function HollowOf(files: map<Path, Bytes>, dirs: set<Path>): iset<Path> {
    iset d | Hollow(files.Keys, dirs, d)
  }

  /** What the caller could check before the run. */
  ghost predicate CanMirror(files: map<Path, Bytes>, dirs: set<Path>, r: Remote) {
    PrefixFree(r.Keys()) && ClearOf(r.Keys(), HollowOf(files, dirs))
  }

  ghost predicate AllReadable(files: map<Path, Bytes>, r: Remote) {
    forall k :: k in r.Keys() ==> k in r.pages && Readable(files, r, k)
  }

  ghost function TallyAll(files: map<Path, Bytes>, r: Remote, deleted: nat): Counts
    requires r.Ok()
  {
    OrderLaws(r);
    Tally(files, r, SortedKeys(r), deleted)
  }

  /** The counters of an undisturbed run over these trees. */
  ghost function Predicted(files: map<Path, Bytes>, r: Remote): Counts
    requires r.Ok()
  {
    TallyAll(files, r, |files.Keys - r.Keys()|)
  }

  /** The target holds exactly the remote's pages, each as fetched or as already matching. */
  ghost predicate IsMirror(files0: map<Path, Bytes>, files: map<Path, Bytes>, r: Remote) {
    && files.Keys == r.Keys()
    && (forall k :: k in r.Keys() ==>
          k in r.pages && Readable(files0, r, k) && (k in files0 || NeedsPull(files0, r, k)) &&
          files[k] == Mirrored(files0, r, k))
  }

  /** A run that failed at page `n` of the sorted listing: unlisted files are gone, the pages before it are mirrored,
      and the others are as they were. */
  ghost predicate IsPartial(files0: map<Path, Bytes>, files: map<Path, Bytes>, r: Remote, n: nat, out: Outcome)
  {
    var order := SortedKeys(r);
    && n < |order| && files.Keys <= r.Keys()
    && (forall k :: k in Taken(order, n) ==>
          k in r.pages && Readable(files0, r, k) && (k in files0 || NeedsPull(files0, r, k)) &&
          k in files && files[k] == Mirrored(files0, r, k))
    && (forall k :: k in r.Keys() && k !in Taken(order, n) ==>
          (k in files <==> k in files0) && (k in files ==> files[k] == files0[k]))
    && (out.ReaderFailed? ==> order[n] in r.pages && !Readable(files0, r, order[n]))
  }

  /** `_sync_once(dry_run=False)`. It finishes exactly when every needed page is readable and the remote fits
      the tree; a reader failure or a clash leaves a tree as good to start from as before. */
  method SyncOnce(t: VaultDir, r: Remote) returns (out: Outcome)
    requires t.Valid() && r.Ok()
    modifies t
    ensures t.Valid() && Justified(t.dirs, t.files.Keys, HollowOf(old(t.files), old(t.dirs)))
    ensures out.Done? ==> IsMirror(old(t.files), t.files, r) && out.counts == Predicted(old(t.files), r)
    ensures out.Done? ==> CanMirror(old(t.files), old(t.dirs), r)
    ensures out.Clash? ==> !CanMirror(old(t.files), old(t.dirs), r)
    ensures out.ReaderFailed? ==> !AllReadable(old(t.files), r)
    ensures !out.Done? ==> exists n: nat :: IsPartial(old(t.files), t.files, r, n, out)
  {
    ghost var files0, dirs0 := t.files, t.dirs;
    ghost var hollow, rset := HollowOf(t.files, t.dirs), r.Keys();
    StartsPruned(t.files, t.dirs, hollow);
    var listed := set k | k in r.listing;
    var deleted := DeleteStale(t, listed, hollow);
    ghost var files1, dirs1 := t.files, t.dirs;
    PrunedJustified(t.dirs, t.files.Keys, hollow);
    OrderLaws(r);
    var order := SortedKeys(r);
    out := PullAll(t, r, order, deleted, hollow, rset);
    StaleGone(files0, files1, r);
    SamePrediction(files0, files1, r, deleted);
    if out.Done? {
      FitsWhenDone(t.files, t.dirs, dirs1, files1.Keys, hollow, r);
      MirrorReached(files0, files1, t.files, r);
    } else {
      ghost var n: nat :| StoppedAt(files1, t.files, r, order, n, out);
      PartlyReached(files0, files1, t.files, r, n, out);
    }
  }

  lemma PrunedJustified(dirs: set<Path>, files: set<Path>, hollow: iset<Path>)
    requires DirsAre(dirs, files, hollow, [])
    ensures Justified(dirs, files, hollow)
  {
    forall a | a in dirs ensures Kept(files, hollow, a) {
      assert a in dirs <==> Kept(files, hollow, a) || AtOrAbove(a, []);
    }
  }

  /** Deleting pages the remote does not have changes nothing about the pages it has. */
  lemma StaleGone(files0: map<Path, Bytes>, files1: map<Path, Bytes>, r: Remote)
    requires r.Ok() && files1 == files0 - (files0.Keys - r.Keys())
    ensures forall k :: k in r.Keys() ==> (k in files1 <==> k in files0)
    ensures forall k :: k in r.Keys() && k in r.pages ==>
              NeedsPull(files1, r, k) == NeedsPull(files0, r, k) && Readable(files1, r, k) == Readable(files0, r, k)
  {
  }

  lemma SamePrediction(files0: map<Path, Bytes>, files1: map<Path, Bytes>, r: Remote, deleted: nat)
    requires r.Ok() && files1 == files0 - (files0.Keys - r.Keys())
    ensures TallyAll(files1, r, deleted) == TallyAll(files0, r, deleted)
  {
    OrderLaws(r);
    SortedKeysMembers(r);
    var order := SortedKeys(r);
    StaleGone(files0, files1, r);
    forall i | 0 <= i < |order| ensures NeedsPull(files1, r, order[i]) == NeedsPull(files0, r, order[i]) {
      assert order[i] in order;
    }
    SameTally(files0, files1, r, order, deleted);
  }

  lemma {:induction false} SameTally(files0: map<Path, Bytes>, files1: map<Path, Bytes>, r: Remote, keys: seq<Path>,
                                     deleted: nat)
    requires forall i :: 0 <= i < |keys| ==> keys[i] in r.pages
    requires forall i :: 0 <= i < |keys| ==> NeedsPull(files1, r, keys[i]) == NeedsPull(files0, r, keys[i])
    ensures Tally(files1, r, keys, deleted) == Tally(files0, r, keys, deleted)
  {
    if keys != [] {
      SameTally(files0, files1, r, keys[..|keys| - 1], deleted);
    }
  }

  lemma FitsWhenDone(files: map<Path, Bytes>, dirs: set<Path>, dirs1: set<Path>, kept: set<Path>, hollow: iset<Path>,
                     r: Remote)
    requires TreeOk(files, dirs) && dirs1 <= dirs && DirsAre(dirs1, kept, hollow, [])
    requires forall k :: k in r.Keys() ==> k in files
    ensures PrefixFree(r.Keys()) && ClearOf(r.Keys(), hollow)
  {
    forall a, b | a in r.Keys() && b in r.Keys() ensures !(a < b) {
      if a < b {
        assert b[..|a|] == a;
        PrefixesAreDirs(files, dirs, b, |a|);
      }
    }
    forall k, h | k in r.Keys() && h in hollow ensures !(k <= h) {
      if k <= h {
        assert h in dirs1 by { assert h <= h; assert Kept(kept, hollow, h); }
        assert h[..|k|] == k;
        if k != h { PrefixesAreDirs(files, dirs, h, |k|); }
      }
    }
  }

  lemma MirrorReached(files0: map<Path, Bytes>, files1: map<Path, Bytes>, files: map<Path, Bytes>, r: Remote)
    requires r.Ok() && files1 == files0 - (files0.Keys - r.Keys())
    requires PullState(files1, files, r, r.Keys())
    ensures IsMirror(files0, files, r)
  {
    forall k | k in r.Keys()
      ensures k in r.pages && Readable(files0, r, k) && (k in files0 || NeedsPull(files0, r, k))
      ensures files[k] == Mirrored(files0, r, k)
    {
      assert NeedsPull(files1, r, k) == NeedsPull(files0, r, k);
    }
    assert files.Keys == r.Keys();
  }

  lemma PartlyReached(files0: map<Path, Bytes>, files1: map<Path, Bytes>, files: map<Path, Bytes>, r: Remote, n: nat,
                      out: Outcome)
    requires r.Ok() && files1 == files0 - (files0.Keys - r.Keys())
    requires StoppedAt(files1, files, r, SortedKeys(r), n, out)
    ensures IsPartial(files0, files, r, n, out)
    ensures out.ReaderFailed? ==> !AllReadable(files0, r)
  {
    OrderLaws(r);
    var order, all := SortedKeys(r), Taken(SortedKeys(r), |SortedKeys(r)|);
    assert order[n] in all;
    forall k | k in Taken(order, n) ensures k in all {
    }
    StaleGone(files0, files1, r);
    forall k | k in Taken(order, n)
      ensures k in r.pages && Readable(files0, r, k) && (k in files0 || NeedsPull(files0, r, k))
      ensures files[k] == Mirrored(files0, r, k)
    {
      assert NeedsPull(files1, r, k) == NeedsPull(files0, r, k);
    }
  }

  // ---- What a finished run means ---------------------------------------------------------

  /** Hash metadata, where present, is the hash of the page body. */
  predicate Truthful(r: Remote) {
    forall i :: 0 <= i < |r.listing| ==> r.listing[i] in r.pages ==> TruthfulPage(r.pages[r.listing[i]], r.hash)
  }

  predicate TruthfulPage(p: Page, hash: Bytes -> string) {
    p.head.HeadHash? && p.head.hash != "" ==> p.body.Body? && hash(p.body.bytes) == p.head.hash
  }

  /** The hash tells the contents in play apart: what is on disk at a page's path and what the remote has there. */
  ghost predicate TellsApart(files: map<Path, Bytes>, r: Remote) {
    forall k :: k in r.Keys() && k in files && k in r.pages && r.pages[k].body.Body? ==>
      r.hash(files[k]) == r.hash(r.pages[k].body.bytes) ==> files[k] == r.pages[k].body.bytes
  }

  /** With truthful metadata, a finished run leaves exactly the remote's names and contents. */
  lemma MirrorIsRemote(files0: map<Path, Bytes>, files: map<Path, Bytes>, r: Remote)
    requires IsMirror(files0, files, r) && Truthful(r) && TellsApart(files0, r)
    ensures files.Keys == r.Keys()
    ensures forall k :: k in r.Keys() ==> k in r.pages && r.pages[k].body == Body(files[k])
  {
    forall k | k in r.Keys() ensures k in r.pages && r.pages[k].body == Body(files[k]) {
      var i :| 0 <= i < |r.listing| && r.listing[i] == k;
      assert TruthfulPage(r.pages[k], r.hash);
    }
  }

  predicate NoMetadata(r: Remote, k: Path)
    requires k in r.pages
  {
    r.pages[k].head == HeadHash("")
  }

  /** A second run over the same remote deletes nothing and pulls exactly the pages without metadata. */
  lemma SecondRunIsQuiet(files0: map<Path, Bytes>, files: map<Path, Bytes>, r: Remote)
    requires r.Ok() && IsMirror(files0, files, r) && Truthful(r)
    ensures files.Keys - r.Keys() == {}
    ensures forall k :: k in r.Keys() ==> (NeedsPull(files, r, k) <==> NoMetadata(r, k))
    ensures Predicted(files, r).deleted == 0
  {
    forall k | k in r.Keys() ensures NeedsPull(files, r, k) <==> NoMetadata(r, k) {
      var i :| 0 <= i < |r.listing| && r.listing[i] == k;
      assert TruthfulPage(r.pages[k], r.hash);
    }
    OrderLaws(r);
    TallyDeleted(files, r, SortedKeys(r), 0);
  }

  lemma {:induction false} TallyDeleted(files: map<Path, Bytes>, r: Remote, keys: seq<Path>, deleted: nat)
    requires forall i :: 0 <= i < |keys| ==> keys[i] in r.pages
    ensures Tally(files, r, keys, deleted).deleted == deleted
    ensures (forall i :: 0 <= i < |keys| ==> Readable(files, r, keys[i])) ==>
              Tally(files, r, keys, deleted).pulled + Tally(files, r, keys, deleted).skipped == |keys|
  {
    if keys != [] {
      TallyDeleted(files, r, keys[..|keys| - 1], deleted);
    }
  }

  lemma {:induction false} TakenSize<T>(order: seq<T>, i: nat)
    requires AllNew(order) && i <= |order|
    ensures |Taken(order, i)| == i
  {
    if i > 0 {
      TakenSize(order, i - 1);
      assert Taken(order, i) == Taken(order, i - 1) + {order[i - 1]};
    } else {
      assert Taken(order, 0) == {};
    }
  }

  /** Every remote page is either pulled or skipped. */
  lemma CountsCoverRemote(files: map<Path, Bytes>, r: Remote)
    requires r.Ok() && AllReadable(files, r)
    ensures Predicted(files, r).pulled + Predicted(files, r).skipped == |r.Keys()|
  {
    OrderLaws(r);
    var order := SortedKeys(r);
    TakenSize(order, |order|);
    forall i | 0 <= i < |order| ensures Readable(files, r, order[i]) {
      assert order[i] in Taken(order, |order|);
    }
    TallyDeleted(files, r, order, |files.Keys - r.Keys()|);
  }

  // ---- Dry run -----------------------------------------------------------------------------

  /** One turn of the dry walk: what it adds to the counters, or a reader failure. */
  method DryOne(files: map<Path, Bytes>, r: Remote, k: Path, c: Counts) returns (out: Outcome)
    requires k in r.pages
    ensures out.Done? || (out.ReaderFailed? && !Readable(files, r, k))
    ensures out.Done? ==> out.counts == Counted(files, r, k, c)
  {
    var page := r.pages[k];
    if page.head.HeadRaises? {
      return ReaderFailed;
    }
    if page.head.hash != "" && k in files && r.hash(files[k]) == page.head.hash {
      return Done(c.(skipped := c.skipped + 1));
    }
    if page.body.Gone? {
      return Done(c);
    }
    if page.body.ReadRaises? {
      return ReaderFailed;
    }
    return Done(c.(pulled := c.pulled + 1, bytes := c.bytes + |page.body.bytes|));
  }

  /** `_sync_once(dry_run=True)`: same walk, no writes. It returns the counters a real run of these trees
      would return, or fails only where the reader raises. */
  method DryRun(files: map<Path, Bytes>, r: Remote) returns (out: Outcome)
    requires r.Ok()
    ensures out.Done? ==> out.counts == Predicted(files, r)
    ensures out.Done? || out.ReaderFailed?
    ensures out.ReaderFailed? ==> !AllReadable(files, r)
  {
    OrderLaws(r);
    var order := SortedKeys(r);
    var listed := set k | k in r.listing;
    var deleted := |files.Keys - listed|;
    var c := Counts(0, deleted, 0, 0);
    for i := 0 to |order|
      invariant c == Tally(files, r, order[..i], deleted)
    {
      assert order[i] in Taken(order, |order|);
      TallyStep(files, r, order, i, deleted);
      var step := DryOne(files, r, order[i], c);
      if step.ReaderFailed? {
        return step;
      }
      c := step.counts;
    }
    assert order[..|order|] == order;
    return Done(c);
  }

  // ---- The service loop ----------------------------------------------------------------------

  /** A hollow-free tree stays hollow-free, so the next run can start from it whether this one finished, failed to
      read a page or clashed. */
  lemma StaysHollowFree(files0: map<Path, Bytes>, dirs0: set<Path>, files: map<Path, Bytes>, dirs: set<Path>)
    requires NoHollow(files0.Keys, dirs0) && Justified(dirs, files.Keys, HollowOf(files0, dirs0))
    ensures NoHollow(files.Keys, dirs)
  {
    forall d | d in dirs && d != [] ensures HasFileBelow(files.Keys, d) {
      assert Kept(files.Keys, HollowOf(files0, dirs0), d);
    }
  }

  lemma HollowFreeFits(files: map<Path, Bytes>, dirs: set<Path>, r: Remote)
    requires NoHollow(files.Keys, dirs)
    ensures CanMirror(files, dirs, r) <==> PrefixFree(r.Keys())
  {
    assert forall h :: h !in HollowOf(files, dirs);
  }

  function Pow2(n: nat): nat {
    if n == 0 then 1 else 2 * Pow2(n - 1)
  }

  /** The wait after `fails` consecutive failures. */
  function Backoff(fails: nat): nat
    requires fails > 0
  {
    var w := Pow2(fails - 1);
    if w < 60 then w else 60
  }

  /** Failures in a row at the end of a history of ticks. */
  function TrailingFailures(oks: seq<bool>): nat {
    if oks == [] || oks[|oks| - 1] then 0 else 1 + TrailingFailures(oks[..|oks| - 1])
  }

  /** The waits of a history: the interval after a success, the backoff after a failure. */
  function Waits(oks: seq<bool>, interval: nat): seq<nat> {
    if oks == [] then []
    else Waits(oks[..|oks| - 1], interval) +
         [if oks[|oks| - 1] then interval else Backoff(TrailingFailures(oks))]
  }

  /** The most failures in a row whose backoff `1.0 * 2 ** (fails - 1)` is still a float. */
  const MOST_FAILURES := 1024

  /** Why the loop stopped: it has not, a backoff overflowed, or a tick met a clash, which it does not catch. */
  datatype LoopEnd = Ongoing | Overflowed | Crashed

  function Oks(outcomes: seq<Outcome>): (r: seq<bool>)
    ensures |r| == |outcomes|
  {
    if outcomes == [] then [] else Oks(outcomes[..|outcomes| - 1]) + [outcomes[|outcomes| - 1].Done?]
  }

  /** What one tick's outcome says about its remote and the tree before and after; None is a listing that failed. */
  ghost predicate TickMeans(before: map<Path, Bytes>, after: map<Path, Bytes>, seen: Option<Remote>, out: Outcome)
    requires WellListed(seen)
  {
    match seen
    case None => out.ReaderFailed? && after == before
    case Some(r) =>
      && (out.Done? ==> IsMirror(before, after, r) && out.counts == Predicted(before, r) && PrefixFree(r.Keys()))
      && (out.ReaderFailed? ==> !AllReadable(before, r))
      && (out.Clash? ==> !PrefixFree(r.Keys()))
      && (!out.Done? ==> exists n: nat :: IsPartial(before, after, r, n, out))
  }

  ghost predicate WellListed(seen: Option<Remote>) {
    seen.Some? ==> seen.value.Ok()
  }

  /** The loop got past these ticks. */
  ghost predicate Survived(outcomes: seq<Outcome>) {
    && (forall i :: 0 <= i < |outcomes| ==> !outcomes[i].Clash?)
    && (forall n {:trigger outcomes[..n]} :: 0 <= n <= |outcomes| ==>
          TrailingFailures(Oks(outcomes[..n])) <= MOST_FAILURES)
  }

  /** Every tick's outcome means what it says, `trees` being the trees between the ticks. */
  ghost predicate Ticked(trees: seq<map<Path, Bytes>>, remotes: seq<Option<Remote>>, outcomes: seq<Outcome>) {
    && |trees| == |outcomes| + 1 && |outcomes| <= |remotes|
    && (forall i :: 0 <= i < |remotes| ==> WellListed(remotes[i]))
    && (forall i :: 0 <= i < |outcomes| ==> TickMeans(trees[i], trees[i + 1], remotes[i], outcomes[i]))
  }

  lemma TickedOneMore(trees: seq<map<Path, Bytes>>, remotes: seq<Option<Remote>>, outcomes: seq<Outcome>,
                      out: Outcome, after: map<Path, Bytes>)
    requires Ticked(trees, remotes, outcomes) && |outcomes| < |remotes|
    requires TickMeans(trees[|outcomes|], after, remotes[|outcomes|], out)
    ensures Ticked(trees + [after], remotes, outcomes + [out])
  {
  }

  lemma SurvivedOneMore(outcomes: seq<Outcome>, out: Outcome)
    requires Survived(outcomes) && !out.Clash?
    ensures TrailingFailures(Oks(outcomes + [out])) <= MOST_FAILURES ==> Survived(outcomes + [out])
    ensures TrailingFailures(Oks(outcomes)) <= MOST_FAILURES
  {
    var all := outcomes + [out];
    assert outcomes[..|outcomes|] == outcomes;
    if TrailingFailures(Oks(all)) <= MOST_FAILURES {
      forall n | 0 <= n <= |all| ensures TrailingFailures(Oks(all[..n])) <= MOST_FAILURES {
        if n <= |outcomes| {
          assert all[..n] == outcomes[..n];
        } else {
          assert all[..n] == all;
        }
      }
    }
  }

  lemma OksSnoc(outcomes: seq<Outcome>, out: Outcome)
    ensures Oks(outcomes + [out]) == Oks(outcomes) + [out.Done?]
    ensures TrailingFailures(Oks(outcomes + [out])) == if out.Done? then 0 else TrailingFailures(Oks(outcomes)) + 1
  {
    assert (outcomes + [out])[..|outcomes|] == outcomes;
    assert (Oks(outcomes) + [out.Done?])[..|outcomes|] == Oks(outcomes);
  }

  lemma WaitsSnoc(outcomes: seq<Outcome>, out: Outcome, interval: nat)
    ensures Waits(Oks(outcomes + [out]), interval)
         == Waits(Oks(outcomes), interval)
            + [if out.Done? then interval else Backoff(TrailingFailures(Oks(outcomes)) + 1)]
  {
    OksSnoc(outcomes, out);
    assert (Oks(outcomes) + [out.Done?])[..|outcomes|] == Oks(outcomes);
  }

  /** What the loop has to show when it ends, or so far. */
  ghost predicate Ended(outcomes: seq<Outcome>, waits: seq<nat>, interval: nat, end: LoopEnd) {
    match end
    case Ongoing => Survived(outcomes) && waits == Waits(Oks(outcomes), interval)
    case Crashed => EndedBadly(outcomes, waits, interval) && outcomes[|outcomes| - 1].Clash?
    case Overflowed =>
      && EndedBadly(outcomes, waits, interval) && outcomes[|outcomes| - 1].ReaderFailed?
      && TrailingFailures(Oks(outcomes)) == MOST_FAILURES + 1
  }

  /** The loop survived all ticks but the last, after which it did not wait. */
  ghost predicate EndedBadly(outcomes: seq<Outcome>, waits: seq<nat>, interval: nat) {
    && outcomes != [] && Survived(outcomes[..|outcomes| - 1])
    && waits == Waits(Oks(outcomes[..|outcomes| - 1]), interval)
  }

  /** The loop has seen these ticks, from the tree `first` to the tree `last`. */
  ghost predicate Seen(trees: seq<map<Path, Bytes>>, remotes: seq<Option<Remote>>, outcomes: seq<Outcome>,
                       first: map<Path, Bytes>, last: map<Path, Bytes>)
  {
    Ticked(trees, remotes, outcomes) && trees[0] == first && trees[|outcomes|] == last
  }

  lemma SeenOneMore(trees: seq<map<Path, Bytes>>, remotes: seq<Option<Remote>>, outcomes: seq<Outcome>,
                    first: map<Path, Bytes>, last: map<Path, Bytes>, out: Outcome, after: map<Path, Bytes>)
    requires Seen(trees, remotes, outcomes, first, last) && |outcomes| < |remotes|
    requires TickMeans(last, after, remotes[|outcomes|], out)
    ensures Seen(trees + [after], remotes, outcomes + [out], first, after)
  {
    TickedOneMore(trees, remotes, outcomes, out, after);
  }

  /** The failures in a row after one more tick. */
  function FailsAfter(fails: nat, out: Outcome): nat {
    if out.Done? then 0 else fails + 1
  }

  lemma EndedOneMore(outcomes: seq<Outcome>, waits: seq<nat>, interval: nat, fails: nat, out: Outcome)
    requires Ended(outcomes, waits, interval, Ongoing) && fails == TrailingFailures(Oks(outcomes))
    ensures out.Clash? ==> Ended(outcomes + [out], waits, interval, Crashed)
    ensures !out.Clash? && FailsAfter(fails, out) > MOST_FAILURES ==>
              Ended(outcomes + [out], waits, interval, Overflowed)
    ensures !out.Clash? && FailsAfter(fails, out) <= MOST_FAILURES ==>
              Ended(outcomes + [out], waits + [if out.Done? then interval else Backoff(fails + 1)], interval, Ongoing)
    ensures FailsAfter(fails, out) == TrailingFailures(Oks(outcomes + [out]))
  {
    OksSnoc(outcomes, out);
    assert (outcomes + [out])[..|outcomes|] == outcomes;
    if !out.Clash? {
      SurvivedOneMore(outcomes, out);
      WaitsSnoc(outcomes, out, interval);
    }
  }

  /** `_run_loop` over the remotes that successive ticks see, from any hollow-free tree. `trees` holds the tree each
      tick started from and the last one. The loop goes on until a clash, possible only with a remote that is not
      prefix-free, or until the 1025th failure in a row. */
  method RunLoop(t: VaultDir, remotes: seq<Option<Remote>>, interval: nat)
    returns (outcomes: seq<Outcome>, waits: seq<nat>, end: LoopEnd, ghost trees: seq<map<Path, Bytes>>)
    requires t.Valid() && NoHollow(t.files.Keys, t.dirs)
    requires forall i :: 0 <= i < |remotes| ==> WellListed(remotes[i])
    modifies t
    ensures t.Valid() && NoHollow(t.files.Keys, t.dirs)
    ensures Seen(trees, remotes, outcomes, old(t.files), t.files)
    ensures Ended(outcomes, waits, interval, end) && (end.Ongoing? ==> |outcomes| == |remotes|)
  {
    outcomes, waits, end, trees := [], [], Ongoing, [t.files];
    var fails: nat := 0;
    for i := 0 to |remotes|
      invariant t.Valid() && NoHollow(t.files.Keys, t.dirs)
      invariant Seen(trees, remotes, outcomes, old(t.files), t.files) && |outcomes| == i
      invariant end.Ongoing? && Ended(outcomes, waits, interval, Ongoing) && fails == TrailingFailures(Oks(outcomes))
    {
      ghost var before := t.files;
      var out := Tick(t, remotes[i]);
      SeenOneMore(trees, remotes, outcomes, old(t.files), before, out, t.files);
      EndedOneMore(outcomes, waits, interval, fails, out);
      outcomes, trees := outcomes + [out], trees + [t.files];
      if out.Clash? {
        end := Crashed;
        return;
      }
      fails := FailsAfter(fails, out);
      if fails > MOST_FAILURES {
        end := Overflowed;
        return;
      }
      waits := waits + [if out.Done? then interval else Backoff(fails)];
    }
  }

  /** `_tick` up to its report: one run of the mirror on a hollow-free tree, unless the listing fails. */
  method Tick(t: VaultDir, seen: Option<Remote>) returns (out: Outcome)
    requires t.Valid() && NoHollow(t.files.Keys, t.dirs) && WellListed(seen)
    modifies t
    ensures t.Valid() && NoHollow(t.files.Keys, t.dirs)
    ensures TickMeans(old(t.files), t.files, seen, out)
  {
    if seen.None? {
      return ReaderFailed;
    }
    ghost var files0, dirs0 := t.files, t.dirs;
    HollowFreeFits(t.files, t.dirs, seen.value);
    out := SyncOnce(t, seen.value);
    StaysHollowFree(files0, dirs0, t.files, t.dirs);
  }

  /** The listing succeeded, and so does every read. */
  ghost predicate GoodTick(tree: map<Path, Bytes>, seen: Option<Remote>)
    requires WellListed(seen)
  {
    seen.Some? && AllReadable(tree, seen.value)
  }

  /** Prefix-free remotes never crash the loop, and readable ones besides never stop it. */
  lemma FitRemotesKeepLooping(trees: seq<map<Path, Bytes>>, remotes: seq<Option<Remote>>, outcomes: seq<Outcome>,
                              first: map<Path, Bytes>, last: map<Path, Bytes>,
                              waits: seq<nat>, interval: nat, end: LoopEnd)
    requires Seen(trees, remotes, outcomes, first, last) && Ended(outcomes, waits, interval, end)
    requires forall i :: 0 <= i < |remotes| && remotes[i].Some? ==> PrefixFree(remotes[i].value.Keys())
    ensures !end.Crashed? && forall i :: 0 <= i < |outcomes| ==> !outcomes[i].Clash?
    ensures (forall i :: 0 <= i < |outcomes| ==> GoodTick(trees[i], remotes[i])) ==>
      end.Ongoing? && forall i :: 0 <= i < |outcomes| ==> outcomes[i].Done?
  {
    forall i | 0 <= i < |outcomes|
      ensures !outcomes[i].Clash? && (GoodTick(trees[i], remotes[i]) ==> outcomes[i].Done?)
    {
      assert TickMeans(trees[i], trees[i + 1], remotes[i], outcomes[i]);
    }
  }

  // ---- How long an outage the loop survives -----------------------------------------------------

  /** A history without clashes is survived exactly when no stretch of 1025 ticks in a row fails. */
  lemma SurvivedIff(outcomes: seq<Outcome>)
    requires forall i :: 0 <= i < |outcomes| ==> !outcomes[i].Clash?
    ensures Survived(outcomes) <==>
            !exists n: nat :: n + MOST_FAILURES + 1 <= |outcomes| && FailsFrom(outcomes, n)
  {
    if n: nat :| n + MOST_FAILURES + 1 <= |outcomes| && FailsFrom(outcomes, n) {
      TrailAtLeast(outcomes[..n + MOST_FAILURES + 1], MOST_FAILURES + 1);
    } else {
      forall n | 0 <= n <= |outcomes| ensures TrailingFailures(Oks(outcomes[..n])) <= MOST_FAILURES {
        if TrailingFailures(Oks(outcomes[..n])) > MOST_FAILURES {
          TrailFails(outcomes[..n], MOST_FAILURES + 1);
          assert FailsFrom(outcomes, n - MOST_FAILURES - 1);
        }
      }
    }
  }

  ghost predicate FailsFrom(outcomes: seq<Outcome>, n: nat) {
    forall i :: n <= i <= n + MOST_FAILURES && i < |outcomes| ==> !outcomes[i].Done?
  }

  /** A failing tail counts at least its length. */
  lemma {:induction false} TrailAtLeast(outcomes: seq<Outcome>, k: nat)
    requires k <= |outcomes| && forall i :: |outcomes| - k <= i < |outcomes| ==> !outcomes[i].Done?
    ensures TrailingFailures(Oks(outcomes)) >= k
  {
    if k > 0 {
      TrailAtLeast(outcomes[..|outcomes| - 1], k - 1);
      OksSnoc(outcomes[..|outcomes| - 1], outcomes[|outcomes| - 1]);
      assert outcomes[..|outcomes| - 1] + [outcomes[|outcomes| - 1]] == outcomes;
    }
  }

  lemma {:induction false} TrailFails(outcomes: seq<Outcome>, k: nat)
    requires TrailingFailures(Oks(outcomes)) >= k
    ensures k <= |outcomes| && forall i :: |outcomes| - k <= i < |outcomes| ==> !outcomes[i].Done?
  {
    if k > 0 {
      assert outcomes != [];
      OksSnoc(outcomes[..|outcomes| - 1], outcomes[|outcomes| - 1]);
      assert outcomes[..|outcomes| - 1] + [outcomes[|outcomes| - 1]] == outcomes;
      TrailFails(outcomes[..|outcomes| - 1], k - 1);
    }
  }
}
