/** The mirror's target as a file tree, with the directory operations the sync uses
    (src/canon_systems/vault_sync.py). */
module VaultTree {
  /** Path components below the target directory; `[]` is the target itself. */
  type Path = seq<string>

  type Bytes = seq<bv8>

  function Parent(p: Path): Path
    requires p != []
  {
    p[..|p| - 1]
  }

  /** Names are files or directories, never both, and every parent is a directory. */
  ghost predicate TreeOk(files: map<Path, Bytes>, dirs: set<Path>) {
    && [] in dirs
    && (forall p :: p in files ==> p !in dirs && p != [])
    && (forall p {:trigger Parent(p)} :: (p in files || p in dirs) && p != [] ==> Parent(p) in dirs)
  }

  predicate AtOrAbove(a: Path, p: Path) {
    a <= p
  }

  predicate IsChild(d: Path, p: Path) {
    |p| == |d| + 1 && p[..|d|] == d
  }

  /** `d` contains something: `any(d.iterdir())`. */
  predicate HasChild(files: map<Path, Bytes>, dirs: set<Path>, d: Path) {
    (exists p :: p in files && IsChild(d, p)) || (exists p :: p in dirs && IsChild(d, p))
  }

  ghost predicate HasFileBelow(files: set<Path>, d: Path) {
    exists f :: f in files && d < f
  }

  /** A directory without any file at any depth below it. */
  ghost predicate Hollow(files: set<Path>, dirs: set<Path>, d: Path) {
    d in dirs && d != [] && !HasFileBelow(files, d)
  }

  /** No directory is hollow: the tree is determined by its files. */
  ghost predicate NoHollow(files: set<Path>, dirs: set<Path>) {
    forall d :: d in dirs && d != [] ==> HasFileBelow(files, d)
  }

  lemma {:induction false} PrefixesAreDirs(files: map<Path, Bytes>, dirs: set<Path>, p: Path, n: nat)
    requires TreeOk(files, dirs) && (p in files || p in dirs) && n < |p|
    ensures p[..n] in dirs
    decreases |p| - n
  {
    if n + 1 == |p| {
      assert p[..n] == Parent(p);
    } else {
      PrefixesAreDirs(files, dirs, p, n + 1);
      assert Parent(p[..n + 1]) == p[..n];
    }
  }

  /** What keeps a directory: it is the root, a file is below it, or a hollow directory is at or below it. */
  ghost predicate Kept(files: set<Path>, hollow: iset<Path>, d: Path) {
    d == [] || HasFileBelow(files, d) || exists h :: h in hollow && d <= h
  }

  lemma KeptUpward(files: set<Path>, hollow: iset<Path>, d: Path, a: Path)
    requires Kept(files, hollow, d) && a <= d
    ensures Kept(files, hollow, a)
  {
    if HasFileBelow(files, d) {
      var f :| f in files && d < f;
      assert a < f;
    } else if h :| h in hollow && d <= h {
      assert a <= h;
    }
  }

  /** The directories are exactly the kept ones, and `extra` and its ancestors while pruning walks up. */
  ghost predicate DirsAre(dirs: set<Path>, files: set<Path>, hollow: iset<Path>, extra: Path) {
    forall a {:trigger Kept(files, hollow, a)} :: a in dirs <==> Kept(files, hollow, a) || AtOrAbove(a, extra)
  }

  /** In a pruned tree a directory with something in it is kept for what it contains. */
  lemma ChildKeeps(files: map<Path, Bytes>, dirs: set<Path>, hollow: iset<Path>, d: Path)
    requires DirsAre(dirs, files.Keys, hollow, d) && HasChild(files, dirs, d)
    ensures Kept(files.Keys, hollow, d)
  {
    if p :| p in files && IsChild(d, p) {
      assert d < p;
    } else {
      var p :| p in dirs && IsChild(d, p);
      assert d <= p && !(p <= d);
      KeptUpward(files.Keys, hollow, p, d);
    }
  }

  /** A kept directory has something in it, unless it is itself hollow. */
  lemma KeptHasChild(files: map<Path, Bytes>, dirs: set<Path>, hollow: iset<Path>, d: Path)
    requires TreeOk(files, dirs) && DirsAre(dirs, files.Keys, hollow, d)
    requires Kept(files.Keys, hollow, d) && d != [] && d !in hollow
    ensures HasChild(files, dirs, d)
  {
    if HasFileBelow(files.Keys, d) {
      var f :| f in files && d < f;
      var c := f[..|d| + 1];
      if c != f {
        PrefixesAreDirs(files, dirs, f, |d| + 1);
      }
      assert IsChild(d, c);
    } else {
      var h :| h in hollow && d <= h;
      assert h != d;
      var c := h[..|d| + 1];
      KeptUpward(files.Keys, hollow, h, c);
      assert IsChild(d, c);
    }
  }

  /** Pruning removes a directory nothing keeps and moves up. */
  lemma PruneStep(dirs: set<Path>, files: set<Path>, hollow: iset<Path>, d: Path)
    requires DirsAre(dirs, files, hollow, d) && d != [] && !Kept(files, hollow, d)
    ensures DirsAre(dirs - {d}, files, hollow, Parent(d))
  {
    forall a ensures a in dirs - {d} <==> Kept(files, hollow, a) || AtOrAbove(a, Parent(d)) {
      assert AtOrAbove(a, d) <==> a == d || AtOrAbove(a, Parent(d));
      assert a in dirs <==> Kept(files, hollow, a) || AtOrAbove(a, d);
    }
  }

  /** Pruning stops at a directory something keeps: so are all above it. */
  lemma PruneStop(dirs: set<Path>, files: set<Path>, hollow: iset<Path>, d: Path)
    requires DirsAre(dirs, files, hollow, d) && Kept(files, hollow, d)
    ensures DirsAre(dirs, files, hollow, [])
  {
    forall a ensures a in dirs <==> Kept(files, hollow, a) || AtOrAbove(a, []) {
      assert a in dirs <==> Kept(files, hollow, a) || AtOrAbove(a, d);
      if AtOrAbove(a, d) {
        KeptUpward(files, hollow, d, a);
      }
    }
  }

  class VaultDir {
    var files: map<Path, Bytes>
    var dirs: set<Path>

    ghost predicate Valid()
      reads this
    {
      TreeOk(files, dirs)
    }

    /** Every directory is the root, holds a file, or leads to one of the `hollow` directories. */
    ghost predicate Pruned(hollow: iset<Path>)
      reads this
    {
      Valid() && DirsAre(dirs, files.Keys, hollow, [])
    }

    constructor ()
      ensures Valid() && files == map[] && dirs == {[]}
    {
      files, dirs := map[], {[]};
    }

    /** `unlink` */
    method Unlink(p: Path)
      requires Valid() && p in files
      modifies this
      ensures Valid() && files == old(files) - {p} && dirs == old(dirs)
    {
      files := files - {p};
    }

    /** `_prune_empty_after_delete`: remove the emptied directories above a deleted file, up to the root.
        The result is the tree without every directory the file alone kept alive. */
    method PruneAfterDelete(deleted: Path, ghost hollow: iset<Path>)
      requires Valid() && deleted != [] && deleted !in files
      requires DirsAre(dirs, files.Keys, hollow, Parent(deleted))
      requires forall h :: h in hollow ==> !(h < deleted)
      modifies this
      ensures Pruned(hollow) && files == old(files)
    {
      var d := Parent(deleted);
      while d != []
        invariant Valid() && files == old(files) && d < deleted
        invariant DirsAre(dirs, files.Keys, hollow, d)
        decreases |d|
      {
        assert d in dirs by { assert Kept(files.Keys, hollow, d) || AtOrAbove(d, d); }
        if d !in dirs {
          break;
        }
        if HasChild(files, dirs, d) {
          ChildKeeps(files, dirs, hollow, d);
          PruneStop(dirs, files.Keys, hollow, d);
          return;
        }
        if Kept(files.Keys, hollow, d) {
          KeptHasChild(files, dirs, hollow, d);
        }
        PruneStep(dirs, files.Keys, hollow, d);
        dirs := dirs - {d};
        d := Parent(d);
      }
    }

    /** `mkdir(parents=True, exist_ok=True)` on the parent of `p`; fails when an ancestor is a file. */
    method MakeParents(p: Path) returns (ok: bool)
      requires Valid() && p != []
      modifies this
      ensures Valid() && files == old(files)
      ensures ok <==> forall n :: 0 < n < |p| ==> p[..n] !in files
      ensures ok ==> forall a :: a in dirs <==> a in old(dirs) || a < p
      ensures !ok ==> dirs == old(dirs)
    {
      if n :| 0 < n < |p| && p[..n] in files {
        return false;
      }
      for n := 0 to |p|
        invariant Valid() && files == old(files)
        invariant forall a :: a in dirs <==> a in old(dirs) || (a < p && |a| < n)
        invariant n > 0 ==> p[..n - 1] in dirs
      {
        assert p[..n] < p;
        if n > 0 { assert Parent(p[..n]) == p[..n - 1]; }
        dirs := dirs + {p[..n]};
        assert forall a :: a < p && |a| == n ==> a == p[..n];
      }
      return true;
    }

    /** `write_bytes`; fails on a directory. */
    method Write(p: Path, b: Bytes) returns (ok: bool)
      requires Valid() && p != [] && Parent(p) in dirs
      modifies this
      ensures Valid() && dirs == old(dirs)
      ensures ok <==> p !in dirs
      ensures files == if ok then old(files)[p := b] else old(files)
    {
      if p in dirs {
        return false;
      }
      files := files[p := b];
      return true;
    }
  }
}
