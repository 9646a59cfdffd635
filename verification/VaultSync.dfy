/** The two-phase mirror sync and its loop (src/canon_systems/vault_sync.py). */
module VaultSync {
  import opened Text
  import opened Sorting
  import opened VaultTree

  /** What the reader answers for one listed page. `HeadHash("")` is a page without hash metadata. */
  datatype Head = HeadHash(hash: string) | HeadRaises
  datatype Read = Body(bytes: Bytes) | Gone | ReadRaises
  datatype Page = Page(head: Head, body: Read)

  datatype Counts = Counts(pulled: nat, deleted: nat, skipped: nat, bytes: nat)

  /** `ReaderFailed` is an exception from the reader, `Clash` one from the file system. */
  datatype Outcome = Done(counts: Counts) | ReaderFailed | Clash

  /** The listing and pages of one run; `hash` stands for SHA-256 over contents. */
  datatype Remote = Remote(listing: seq<Path>, pages: map<Path, Page>, hash: Bytes -> string)
  {
    ghost predicate Ok() {
      forall k :: k in listing ==> k in pages && k != []
    }

    ghost function Keys(): set<Path> {
      set k | k in listing
    }
  }

  /** `as_posix()` of a relative path. */
  function Posix(p: Path): string {
    if p == [] then "" else if |p| == 1 then p[0] else p[0] + "/" + Posix(p[1..])
  }

  function PathKey(p: Path): Key {
    [Codes(Posix(p))]
  }

  /** `sorted(rset)`. */
  function SortedKeys(r: Remote): seq<Path> {
    SortBy(Distinct(r.listing), PathKey)
  }

  /** The page is fetched: no metadata, nothing on disk, or another hash on disk. */
  predicate NeedsPull(files: map<Path, Bytes>, r: Remote, k: Path)
    requires k in r.pages
  {
    var head := r.pages[k].head;
    !(head.HeadHash? && head.hash != "" && k in files && r.hash(files[k]) == head.hash)
  }

  /** What one page adds when the reader does not fail: a page that vanished is not counted. */
  function Counted(files: map<Path, Bytes>, r: Remote, k: Path, c: Counts): Counts
    requires k in r.pages
  {
    if !NeedsPull(files, r, k) then c.(skipped := c.skipped + 1)
    else if r.pages[k].body.Body? then c.(pulled := c.pulled + 1, bytes := c.bytes + |r.pages[k].body.bytes|)
    else c
  }

  function Tally(files: map<Path, Bytes>, r: Remote, keys: seq<Path>, deleted: nat): Counts
    requires forall i :: 0 <= i < |keys| ==> keys[i] in r.pages
  {
    if keys == [] then Counts(0, deleted, 0, 0)
    else Counted(files, r, keys[|keys| - 1], Tally(files, r, keys[..|keys| - 1], deleted))
  }

  lemma SortedKeysMembers(r: Remote)
    ensures forall k :: k in SortedKeys(r) <==> k in r.listing
    ensures NoDup(SortedKeys(r))
  {
    SortLaws(Distinct(r.listing), PathKey);
    SortMembers(Distinct(r.listing), PathKey);
    NoDupPermuted(Distinct(r.listing), SortedKeys(r));
  }

  lemma NoDupPermuted<T>(a: seq<T>, b: seq<T>)
    requires NoDup(a) && multiset(a) == multiset(b)
    ensures NoDup(b)
  {
    forall i, j | 0 <= i < j < |b| ensures b[i] != b[j] {
      NoDupCount(a, b[i]);
      if b[i] == b[j] {
        CountTwice(b, i, j);
      }
    }
  }

  lemma CountTwice<T>(b: seq<T>, i: nat, j: nat)
    requires i < j < |b| && b[i] == b[j]
    ensures multiset(b)[b[i]] >= 2
  {
    assert b == b[..j] + [b[j]] + b[j + 1..];
    assert b[i] in b[..j];
  }

  // ---- Phase one: delete what the remote does not have ------------------------------

  lemma InitiallyKept(files: map<Path, Bytes>, dirs: set<Path>, hollow: iset<Path>)
    requires TreeOk(files, dirs)
    requires hollow == iset d | Hollow(files.Keys, dirs, d)
    ensures DirsAre(dirs, files.Keys, hollow, [])
  {
    forall a ensures a in dirs <==> Kept(files.Keys, hollow, a) || AtOrAbove(a, []) {
      if a in dirs && a != [] && !HasFileBelow(files.Keys, a) {
        assert a in hollow && a <= a;
      }
      if HasFileBelow(files.Keys, a) {
        var f :| f in files && a < f;
        PrefixesAreDirs(files, dirs, f, |a|);
        assert f[..|a|] == a;
      } else if h :| h in hollow && a <= h {
        if a != h {
          PrefixesAreDirs(files, dirs, h, |a|);
          assert h[..|a|] == a;
        }
      }
    }
  }

  lemma UnlinkKept(dirs: set<Path>, files: set<Path>, hollow: iset<Path>, p: Path)
    requires p in files && p != [] && DirsAre(dirs, files, hollow, [])
    ensures DirsAre(dirs, files - {p}, hollow, Parent(p))
  {
    forall a ensures a in dirs <==> Kept(files - {p}, hollow, a) || AtOrAbove(a, Parent(p)) {
      assert a < p <==> a <= Parent(p);
      assert a in dirs <==> Kept(files, hollow, a) || AtOrAbove(a, []);
      if HasFileBelow(files, a) {
        var f :| f in files && a < f;
        if f != p { assert f in files - {p}; }
      }
      if HasFileBelow(files - {p}, a) {
        var f :| f in files - {p} && a < f;
        assert f in files;
      }
      if a < p { assert HasFileBelow(files, a); }
    }
  }

  /** `sorted(...)` of a set of paths. */
  method SortedPaths(s: set<Path>) returns (r: seq<Path>)
    ensures forall p :: p in r <==> p in s
  {
    var list: seq<Path>, rest := [], s;
    while rest != {}
      invariant rest <= s
      invariant forall p :: p in list <==> p in s && p !in rest
      decreases rest
    {
      var p :| p in rest;
      list, rest := list + [p], rest - {p};
    }
    r := SortBy(list, PathKey);
    SortMembers(list, PathKey);
  }

  ghost predicate NotAbove(hollow: iset<Path>, files: set<Path>) {
    forall h, p :: h in hollow && p in files ==> !(h < p)
  }

  /** Delete one file and prune above it. */
  method DeleteOne(t: VaultDir, p: Path, ghost hollow: iset<Path>)
    requires t.Pruned(hollow) && p in t.files && NotAbove(hollow, t.files.Keys)
    modifies t
    ensures t.Pruned(hollow) && t.files == old(t.files) - {p} && NotAbove(hollow, t.files.Keys)
  {
    UnlinkKept(t.dirs, t.files.Keys, hollow, p);
    t.Unlink(p);
    assert t.files.Keys == old(t.files.Keys) - {p};
    t.PruneAfterDelete(p, hollow);
  }

  /** The delete loop. `hollow` names the directories that held no file at the start. */
  method DeleteStale(t: VaultDir, rset: set<Path>, ghost hollow: iset<Path>) returns (deleted: nat)
    requires t.Pruned(hollow) && NotAbove(hollow, t.files.Keys)
    modifies t
    ensures t.Pruned(hollow)
    ensures t.files == old(t.files) - (old(t.files.Keys) - rset)
    ensures deleted == |old(t.files.Keys) - rset|
  {
    deleted := 0;
    ghost var files0, goal, gone: set<Path> := t.files, t.files.Keys - rset, {};
    var stale := SortedPaths(t.files.Keys - rset);
    for i := 0 to |stale|
      invariant t.Pruned(hollow) && NotAbove(hollow, t.files.Keys)
      invariant t.files == files0 - gone && gone <= goal
      invariant forall k :: 0 <= k < i ==> stale[k] in gone
      invariant deleted == |gone|
    {
      var p := stale[i];
      assert p in goal;
      if p in t.files {
        DeleteOne(t, p, hollow);
        gone := gone + {p};
        deleted := deleted + 1;
      }
    }
    assert gone == goal;
  }

  /** How a tree enters the delete phase. */
  lemma StartsPruned(files: map<Path, Bytes>, dirs: set<Path>, hollow: iset<Path>)
    requires TreeOk(files, dirs) && hollow == iset d | Hollow(files.Keys, dirs, d)
    ensures DirsAre(dirs, files.Keys, hollow, []) && NotAbove(hollow, files.Keys)
  {
    InitiallyKept(files, dirs, hollow);
  }

  // ---- Phase two: pull what differs ---------------------------------------------------

  /** The page is readable when the loop needs it. */
  predicate Readable(files: map<Path, Bytes>, r: Remote, k: Path)
    requires k in r.pages
  {
    r.pages[k].head.HeadHash? && (NeedsPull(files, r, k) ==> r.pages[k].body.Body?)
  }

  /** What a successful run leaves at `k`. */
  function Mirrored(files: map<Path, Bytes>, r: Remote, k: Path): Bytes
    requires k in r.pages && Readable(files, r, k) && (k in files || NeedsPull(files, r, k))
  {
    if NeedsPull(files, r, k) then r.pages[k].body.bytes else files[k]
  }

  /** The pull loop has handled `done` of the keys, starting from `files1`. */
  ghost predicate PullState(files1: map<Path, Bytes>, files: map<Path, Bytes>, r: Remote, done: set<Path>)
  {
    && (forall k :: k in done ==>
          k in r.pages && Readable(files1, r, k) && k in files && files[k] == Mirrored(files1, r, k))
    && (forall k :: k !in done ==> (k in files <==> k in files1))
    && (forall k :: k !in done && k in files ==> files[k] == files1[k])
  }

  lemma SkipKeeps(files1: map<Path, Bytes>, files: map<Path, Bytes>, r: Remote, done: set<Path>, k: Path)
    requires PullState(files1, files, r, done) && k !in done && k in r.pages
    requires r.pages[k].head.HeadHash? && !NeedsPull(files, r, k)
    ensures PullState(files1, files, r, done + {k}) && !NeedsPull(files1, r, k)
  {
  }

  lemma WriteKeeps(files1: map<Path, Bytes>, files: map<Path, Bytes>, r: Remote, done: set<Path>, k: Path)
    requires PullState(files1, files, r, done) && k !in done && k in r.pages
    requires r.pages[k].head.HeadHash? && NeedsPull(files, r, k) && r.pages[k].body.Body?
    ensures PullState(files1, files[k := r.pages[k].body.bytes], r, done + {k}) && NeedsPull(files1, r, k)
  {
  }

  /** Every directory is the root, holds a file, or leads to a hollow one. */
  ghost predicate Justified(dirs: set<Path>, files: set<Path>, hollow: iset<Path>) {
    forall a {:trigger Kept(files, hollow, a)} :: a in dirs ==> Kept(files, hollow, a)
  }

  lemma GrowJustified(dirs: set<Path>, dirs': set<Path>, files: set<Path>, hollow: iset<Path>, k: Path)
    requires Justified(dirs, files, hollow)
    requires forall a :: a in dirs' <==> a in dirs || a < k
    ensures Justified(dirs', files + {k}, hollow)
    ensures k in dirs ==> Justified(dirs', files, hollow)
  {
    forall a | a in dirs'
      ensures Kept(files + {k}, hollow, a)
      ensures k in dirs ==> Kept(files, hollow, a)
    {
      assert a in dirs ==> Kept(files, hollow, a);
      assert k in dirs ==> Kept(files, hollow, k);
      if a < k {
        assert k in files + {k};
        if k in dirs { KeptUpward(files, hollow, k, a); }
      } else if HasFileBelow(files, a) {
        var f :| f in files && a < f;
        assert f in files + {k};
      }
    }
  }

  /** The remote never names both a page and a page below it. */
  ghost predicate PrefixFree(rset: set<Path>) {
    forall a, b :: a in rset && b in rset ==> !(a < b)
  }

  /** No remote page sits at or above a local directory without files. */
  ghost predicate ClearOf(rset: set<Path>, hollow: iset<Path>) {
    forall k, h :: k in rset && h in hollow ==> !(k <= h)
  }

  /** One page cannot be placed: some page of the remote is in its way, or a hollow directory is. */
  lemma ClashReason(files: map<Path, Bytes>, dirs: set<Path>, hollow: iset<Path>, rset: set<Path>, k: Path)
    requires k in rset && files.Keys <= rset && Justified(dirs, files.Keys, hollow) && k != []
    requires k in dirs || exists n :: 0 < n < |k| && k[..n] in files
    ensures !(PrefixFree(rset) && ClearOf(rset, hollow))
  {
    if n :| 0 < n < |k| && k[..n] in files {
      assert k[..n] < k;
    } else {
      assert Kept(files.Keys, hollow, k);
      if HasFileBelow(files.Keys, k) {
        var f :| f in files && k < f;
      }
    }
  }

  /** One turn of the pull loop for page `k`. */
  method PullOne(t: VaultDir, r: Remote, k: Path, ghost hollow: iset<Path>, ghost rset: set<Path>)
    returns (out: Outcome)
    requires t.Valid() && k in r.pages && k != [] && k in rset && t.files.Keys <= rset
    requires Justified(t.dirs, t.files.Keys, hollow)
    modifies t
    ensures t.Valid() && Justified(t.dirs, t.files.Keys, hollow) && old(t.dirs) <= t.dirs
    ensures out.Done? ==>
              && r.pages[k].head.HeadHash?
              && (NeedsPull(old(t.files), r, k) ==> r.pages[k].body.Body?)
              && t.files == (if NeedsPull(old(t.files), r, k) then old(t.files)[k := r.pages[k].body.bytes]
                             else old(t.files))
              && out.counts == (if NeedsPull(old(t.files), r, k) then Counts(1, 0, 0, |r.pages[k].body.bytes|)
                                else Counts(0, 0, 1, 0))
    ensures !out.Done? ==> t.files == old(t.files)
    ensures out.ReaderFailed? ==> !Readable(old(t.files), r, k)
    ensures out.Clash? ==> !(PrefixFree(rset) && ClearOf(rset, hollow))
  {
    var page := r.pages[k];
    if page.head.HeadRaises? {
      return ReaderFailed;
    }
    if page.head.hash != "" && k in t.files && r.hash(t.files[k]) == page.head.hash {
      return Done(Counts(0, 0, 1, 0));
    }
    if !page.body.Body? {
      return ReaderFailed;
    }
    ghost var dirs0 := t.dirs;
    var ok := t.MakeParents(k);
    if !ok {
      ClashReason(t.files, t.dirs, hollow, rset, k);
      return Clash;
    }
    GrowJustified(dirs0, t.dirs, t.files.Keys, hollow, k);
    assert Parent(k) < k;
    ok := t.Write(k, page.body.bytes);
    if !ok {
      ClashReason(t.files, dirs0, hollow, rset, k);
      return Clash;
    }
    assert t.files.Keys == old(t.files.Keys) + {k};
    return Done(Counts(1, 0, 0, |page.body.bytes|));
  }

  // ---- The whole run -----------------------------------------------------------------

  function Taken<T>(order: seq<T>, i: nat): set<T>
    requires i <= |order|
  {
    set j | 0 <= j < i :: order[j]
  }

  ghost predicate AllNew<T>(order: seq<T>) {
    forall i {:trigger Taken(order, i)} :: 0 <= i < |order| ==> order[i] !in Taken(order, i)
  }

  lemma OrderLaws(r: Remote)
    ensures AllNew(SortedKeys(r)) && Taken(SortedKeys(r), |SortedKeys(r)|) == r.Keys()
    ensures r.Ok() ==> forall i :: 0 <= i < |SortedKeys(r)| ==> SortedKeys(r)[i] in r.pages && SortedKeys(r)[i] != []
  {
    SortedKeysMembers(r);
    var order := SortedKeys(r);
    forall i | 0 <= i < |order| ensures order[i] !in Taken(order, i) {}
    forall i | 0 <= i < |order| ensures order[i] in r.listing { assert order[i] in order; }
    forall k | k in r.Keys() ensures k in Taken(order, |order|) { assert k in order; }
  }

  lemma TallyStep(files: map<Path, Bytes>, r: Remote, order: seq<Path>, i: nat, deleted: nat)
    requires i < |order| && forall j :: 0 <= j < |order| ==> order[j] in r.pages
    ensures Tally(files, r, order[..i + 1], deleted) ==
            Counted(files, r, order[i], Tally(files, r, order[..i], deleted))
  {
    assert order[..i + 1][..i] == order[..i];
  }

  /** The pull loop got through the first `n` pages and failed at the next one. */
  ghost predicate StoppedAt(files1: map<Path, Bytes>, files: map<Path, Bytes>, r: Remote, order: seq<Path>, n: nat,
                            out: Outcome)
  {
    && n < |order| && PullState(files1, files, r, Taken(order, n))
    && (out.ReaderFailed? ==> order[n] in r.pages && !Readable(files1, r, order[n]))
  }

  lemma StillUnreadable(files1: map<Path, Bytes>, files: map<Path, Bytes>, r: Remote, done: set<Path>, k: Path)
    requires PullState(files1, files, r, done) && k !in done && k in r.pages && !Readable(files, r, k)
    ensures !Readable(files1, r, k)
  {
  }

  /** The pull loop. */
  method PullAll(t: VaultDir, r: Remote, order: seq<Path>, deleted: nat,
                 ghost hollow: iset<Path>, ghost rset: set<Path>)
    returns (out: Outcome)
    requires t.Valid() && Justified(t.dirs, t.files.Keys, hollow) && t.files.Keys <= rset
    requires AllNew(order) && Taken(order, |order|) == rset
    requires forall i :: 0 <= i < |order| ==> order[i] in r.pages && order[i] != []
    modifies t
    ensures t.Valid() && Justified(t.dirs, t.files.Keys, hollow) && old(t.dirs) <= t.dirs
    ensures out.Done? ==> PullState(old(t.files), t.files, r, rset)
    ensures out.Done? ==> out.counts == Tally(old(t.files), r, order, deleted)
    ensures !out.Done? ==> exists n: nat :: StoppedAt(old(t.files), t.files, r, order, n, out)
    ensures out.Clash? ==> !(PrefixFree(rset) && ClearOf(rset, hollow))
  {
    ghost var files1, dirs1 := t.files, t.dirs;
    var c := Counts(0, deleted, 0, 0);
    for i := 0 to |order|
      invariant t.Valid() && Justified(t.dirs, t.files.Keys, hollow) && dirs1 <= t.dirs && t.files.Keys <= rset
      invariant PullState(files1, t.files, r, Taken(order, i))
      invariant c == Tally(files1, r, order[..i], deleted)
    {
      var k := order[i];
      ghost var before := t.files;
      assert k in Taken(order, |order|);
      assert k !in Taken(order, i);
      assert Taken(order, i + 1) == Taken(order, i) + {k};
      TallyStep(files1, r, order, i, deleted);
      var step := PullOne(t, r, k, hollow, rset);
      if !step.Done? {
        if step.ReaderFailed? {
          StillUnreadable(files1, before, r, Taken(order, i), k);
        }
        assert StoppedAt(files1, t.files, r, order, i, step);
        return step;
      }
      if NeedsPull(before, r, k) {
        WriteKeeps(files1, before, r, Taken(order, i), k);
      } else {
        SkipKeeps(files1, before, r, Taken(order, i), k);
      }
      c := Counts(c.pulled + step.counts.pulled, c.deleted, c.skipped + step.counts.skipped,
                  c.bytes + step.counts.bytes);
    }
    assert order[..|order|] == order;
    return Done(c);
  }
}
