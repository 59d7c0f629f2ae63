/** The part of the local filesystem the assistant reads and writes: a map
    from path to entry kind, updated in place by the handful of `os` and
    `shutil` calls the Python code makes. Paths are sequences of names, so
    `backend/voice_auth/models/` is `["backend", "voice_auth", "models"]`. */
module FileStore {

  type Path = seq<string>

  datatype Kind = File | Dir

  /** The entries form a tree: every path is non-empty and every entry below
      the top level sits in a directory that is itself an entry. */
  ghost predicate Tree(m: map<Path, Kind>) {
    forall p {:trigger Stored(m, p)} :: Stored(m, p) ==> Placed(m, p)
  }

  /** `p` is an entry. Kept apart from `in` so that the tree property is
      used one entry at a time rather than up a whole chain of parents. */
  predicate Stored(m: map<Path, Kind>, p: Path) {
    p in m
  }

  /** `p` is non-empty and, below the top level, its parent is a directory. */
  predicate Placed(m: map<Path, Kind>, p: Path) {
    |p| > 0 && (|p| > 1 ==> IsDir(m, p[..|p| - 1]))
  }

  predicate IsDir(m: map<Path, Kind>, p: Path) {
    p in m && m[p] == Dir
  }

  /** Every proper, non-empty prefix of an entry is a directory entry. */
  lemma {:induction false} AncestorIsDir(m: map<Path, Kind>, p: Path, q: Path)
    requires Tree(m) && q in m && |p| > 0 && p < q
    ensures IsDir(m, p)
    decreases |q|
  {
    assert Stored(m, q);
    var parent := q[..|q| - 1];
    assert p <= parent;
    if parent != p {
      assert parent in m;
      AncestorIsDir(m, p, parent);
    }
  }

  /** Nothing lies below a regular file. */
  lemma NothingBelowFile(m: map<Path, Kind>, f: Path, q: Path)
    requires Tree(m) && f in m && m[f] == File && q in m && f <= q
    ensures q == f
  {
    if f != q {
      assert Stored(m, f);
      AncestorIsDir(m, f, q);
    }
  }

  /** `m` with the entry `d` and everything below it removed. */
  function WithoutTree(m: map<Path, Kind>, d: Path): (r: map<Path, Kind>)
    ensures forall p :: p in r <==> p in m && !(d <= p)
  {
    map p | p in m && !(d <= p) :: m[p]
  }

  /** `m` with everything strictly below `d` removed and `d` itself kept. */
  function WithoutContents(m: map<Path, Kind>, d: Path): (r: map<Path, Kind>)
    ensures forall p :: p in r <==> p in m && !(d < p)
  {
    map p | p in m && !(d < p) :: m[p]
  }

  /** Some entry at or below `d` cannot be removed. */
  ghost predicate TreeBlocked(m: map<Path, Kind>, locked: set<Path>, d: Path) {
    exists p :: p in m && p in locked && d <= p
  }

  /** Some entry strictly below `d` cannot be removed. */
  ghost predicate ContentsBlocked(m: map<Path, Kind>, locked: set<Path>, d: Path) {
    exists p :: p in m && p in locked && d < p
  }

  /** The names `os.listdir(d)` reports. */
  function ChildNames(m: map<Path, Kind>, d: Path): set<string> {
    set p | p in m && |p| == |d| + 1 && d <= p :: p[|d|]
  }

  function Prefixes(d: Path): set<Path> {
    set k | 1 <= k <= |d| :: d[..k]
  }

  /** Each non-empty prefix of `d` is a directory or absent, which is what
      `os.makedirs(d, exist_ok=True)` needs to succeed. */
  predicate DirsOrAbsent(m: map<Path, Kind>, d: Path) {
    forall k :: 1 <= k <= |d| && d[..k] in m ==> m[d[..k]] == Dir
  }

  /** `m` after `os.makedirs(d, exist_ok=True)`. */
  function WithDirs(m: map<Path, Kind>, d: Path): map<Path, Kind> {
    m + map q | q in Prefixes(d) :: Dir
  }

  /** What opening `p` for writing needs: an existing parent directory and
      no directory at `p` itself. */
  predicate CanWrite(m: map<Path, Kind>, p: Path) {
    |p| > 0 && (|p| == 1 || IsDir(m, p[..|p| - 1])) && !IsDir(m, p)
  }

  /** `m` with the whole subtree of every child `d + [n]`, `n` in `names`, removed. */
  function WithoutChildren(m: map<Path, Kind>, d: Path, names: set<string>): (r: map<Path, Kind>)
    ensures forall p :: p in r <==> p in m && !(d < p && p[|d|] in names)
  {
    map p | p in m && !(d < p && p[|d|] in names) :: m[p]
  }

  /** Some entry in the subtree of a child `d + [n]`, `n` in `names`, cannot be removed. */
  ghost predicate ChildrenBlocked(m: map<Path, Kind>, locked: set<Path>, d: Path, names: set<string>) {
    exists p :: p in m && p in locked && d < p && p[|d|] in names
  }

  /** What a removal loop over the children `all` of `d` leaves when one of
      its removals raises, in whichever order the listing gave them: the
      children removed before the failure, none of which held a locked
      entry, are gone with their subtrees; the child whose removal raised
      holds a locked entry and stays, and so does everything else. */
  ghost predicate StoppedPart(m: map<Path, Kind>, locked: set<Path>, d: Path, all: set<string>,
                              r: map<Path, Kind>) {
    exists done, n :: done <= all && n in all && n !in done
      && !ChildrenBlocked(m, locked, d, done) && ChildrenBlocked(m, locked, d, {n})
      && r == WithoutChildren(m, d, done)
  }

  /** A loop over `names`, in that order, that stops at `names[k]` leaves
      what `StoppedPart` describes. */
  lemma PrefixStop(m: map<Path, Kind>, locked: set<Path>, d: Path, names: seq<string>, k: nat,
                   r: map<Path, Kind>)
    requires forall i, j :: 0 <= i < j < |names| ==> names[i] != names[j]
    requires k < |names|
    requires !ChildrenBlocked(m, locked, d, set j | 0 <= j < k :: names[j])
    requires ChildrenBlocked(m, locked, d, {names[k]})
    requires r == WithoutChildren(m, d, set j | 0 <= j < k :: names[j])
    ensures StoppedPart(m, locked, d, (set n | n in names), r)
  {
    var done := set j | 0 <= j < k :: names[j];
    assert names[k] !in done;
    assert done <= set n | n in names;
  }

  /** `m` after writing a regular file at every path of `ps` where no
      directory stands (a write over a directory raises and changes nothing). */
  function WithFiles(m: map<Path, Kind>, ps: set<Path>): map<Path, Kind> {
    m + map p | p in ps && !IsDir(m, p) :: File
  }

  /** A path lies in the subtree of the child `d + [n]` exactly when it lies
      strictly below `d` and its next name is `n`. */
  lemma UnderChild(d: Path, n: string, p: Path)
    ensures d + [n] <= p <==> d < p && p[|d|] == n
  {
    if d < p && p[|d|] == n {
      assert p[..|d| + 1] == d + [n];
    }
  }

  /** The only entry named `n` directly inside `d` is `d + [n]`. */
  lemma ChildPath(m: map<Path, Kind>, d: Path, n: string)
    requires n in ChildNames(m, d)
    ensures d + [n] in m
  {
    var p :| p in m && |p| == |d| + 1 && d <= p && p[|d|] == n;
    assert p == d + [n];
  }

  /** Writing files never creates nor removes a directory. */
  lemma WithFilesIsDir(m: map<Path, Kind>, ps: set<Path>, p: Path)
    ensures IsDir(WithFiles(m, ps), p) == IsDir(m, p)
  {
  }

  lemma WithFilesStep(m: map<Path, Kind>, ps: set<Path>, p: Path)
    ensures !IsDir(m, p) ==> WithFiles(m, ps)[p := File] == WithFiles(m, ps + {p})
    ensures IsDir(m, p) ==> WithFiles(m, ps) == WithFiles(m, ps + {p})
  {
  }

  /** One `shutil.rmtree(d + [n])` step of a removal loop over the children of `d`. */
  lemma RemoveTreeStep(m0: map<Path, Kind>, locked: set<Path>, d: Path, done: set<string>,
                       all: set<string>, n: string, e: map<Path, Kind>)
    requires e == WithoutChildren(m0, d, done) && n !in done && n in all
    requires !ChildrenBlocked(m0, locked, d, done)
    ensures TreeBlocked(e, locked, d + [n]) ==>
      ChildrenBlocked(m0, locked, d, {n}) && ChildrenBlocked(m0, locked, d, all)
    ensures !TreeBlocked(e, locked, d + [n]) ==>
      WithoutTree(e, d + [n]) == WithoutChildren(m0, d, done + {n})
      && !ChildrenBlocked(m0, locked, d, done + {n})
  {
    forall p ensures d + [n] <= p <==> d < p && p[|d|] == n {
      UnderChild(d, n, p);
    }
  }

  /** One `os.remove(d + [n])` step of a removal loop over the children of `d`,
      where `d + [n]` is not a directory. */
  lemma RemoveFileStep(m0: map<Path, Kind>, locked: set<Path>, d: Path, done: set<string>,
                       all: set<string>, n: string, e: map<Path, Kind>)
    requires Tree(e) && e == WithoutChildren(m0, d, done) && n !in done && n in all
    requires d + [n] in m0 && !IsDir(e, d + [n])
    requires !ChildrenBlocked(m0, locked, d, done)
    ensures d + [n] in locked ==>
      ChildrenBlocked(m0, locked, d, {n}) && ChildrenBlocked(m0, locked, d, all)
    ensures d + [n] !in locked ==>
      e - {d + [n]} == WithoutChildren(m0, d, done + {n})
      && !ChildrenBlocked(m0, locked, d, done + {n})
  {
    var c := d + [n];
    assert c in e && e[c] == File;
    forall p ensures c <= p <==> d < p && p[|d|] == n {
      UnderChild(d, n, p);
    }
    forall p | p in m0 && c <= p ensures p == c {
      assert p in e;
      NothingBelowFile(e, c, p);
    }
  }

  /** Everything strictly below a directory lies below one of its children. */
  lemma AllChildren(m: map<Path, Kind>, locked: set<Path>, d: Path)
    requires Tree(m) && |d| > 0
    ensures WithoutChildren(m, d, ChildNames(m, d)) == WithoutContents(m, d)
    ensures ChildrenBlocked(m, locked, d, ChildNames(m, d)) <==> ContentsBlocked(m, locked, d)
  {
    forall p | p in m && d < p
      ensures p[|d|] in ChildNames(m, d)
    {
      var c := p[..|d| + 1];
      if c != p {
        AncestorIsDir(m, c, p);
      }
      assert c in m && |c| == |d| + 1 && d <= c && c[|d|] == p[|d|];
    }
  }

  lemma RemoveFileKeepsTree(m: map<Path, Kind>, f: Path)
    requires Tree(m) && f in m && m[f] == File
    ensures Tree(m - {f})
  {
    forall p | Stored(m - {f}, p)
      ensures Placed(m - {f}, p)
    {
      assert Stored(m, p);
    }
  }

  lemma WriteKeepsTree(m: map<Path, Kind>, f: Path)
    requires Tree(m) && CanWrite(m, f)
    ensures Tree(m[f := File])
  {
    var r := m[f := File];
    forall p | Stored(r, p)
      ensures Placed(r, p)
    {
      if p != f {
        assert Stored(m, p);
      }
    }
  }

  lemma WithoutTreeKeepsTree(m: map<Path, Kind>, d: Path)
    requires Tree(m)
    ensures Tree(WithoutTree(m, d))
  {
    var r := WithoutTree(m, d);
    forall p | Stored(r, p)
      ensures Placed(r, p)
    {
      assert Stored(m, p);
      if |p| > 1 {
        var parent := p[..|p| - 1];
        assert !(d <= parent);
      }
    }
  }

  lemma WithDirsKeepsTree(m: map<Path, Kind>, d: Path)
    requires Tree(m) && |d| > 0 && DirsOrAbsent(m, d)
    ensures Tree(WithDirs(m, d))
    ensures forall p :: p in m ==> p in WithDirs(m, d) && WithDirs(m, d)[p] == m[p]
  {
    var r := WithDirs(m, d);
    forall p | Stored(r, p)
      ensures Placed(r, p)
    {
      if p in Prefixes(d) {
        var k :| 1 <= k <= |d| && p == d[..k];
        if k > 1 {
          assert p[..|p| - 1] == d[..k - 1];
          assert d[..k - 1] in Prefixes(d);
        }
      } else {
        assert Stored(m, p);
      }
    }
    forall p | p in m
      ensures p in r && r[p] == m[p]
    {
      if p in Prefixes(d) {
        var k :| 1 <= k <= |d| && p == d[..k];
      }
    }
  }

  class Disk {
    var entries: map<Path, Kind>
    /** Entries whose removal raises (a permission error, a file held open). */
    const locked: set<Path>

    ghost predicate Valid()
      reads this
    {
      Tree(entries)
    }

    constructor (entries: map<Path, Kind>, locked: set<Path>)
      requires Tree(entries)
      ensures Valid() && this.entries == entries && this.locked == locked
    {
      this.entries := entries;
      this.locked := locked;
    }

    /** `os.path.exists(p)` */
    function Exists(p: Path): bool
      reads this
    {
      p in entries
    }

    /** `os.path.isdir(p)` */
    function IsDirectory(p: Path): bool
      reads this
    {
      IsDir(entries, p)
    }

    /** `os.listdir(d)`: every name directly inside `d`, each once, in an
        order the model leaves open. */
    method ListDir(d: Path) returns (names: seq<string>)
      requires IsDirectory(d)
      ensures forall n :: n in names <==> n in ChildNames(entries, d)
      ensures forall i, j :: 0 <= i < j < |names| ==> names[i] != names[j]
    {
      var rest := ChildNames(entries, d);
      names := [];
      while rest != {}
        invariant rest <= ChildNames(entries, d)
        invariant forall n :: n in names <==> n in ChildNames(entries, d) && n !in rest
        invariant forall i, j :: 0 <= i < j < |names| ==> names[i] != names[j]
        decreases |rest|
      {
        var n :| n in rest;
        names := names + [n];
        rest := rest - {n};
      }
    }

    /** `os.remove(p)` / `os.unlink(p)`: only a regular file that is not
        locked can be removed; anything else raises and changes nothing. */
    method Remove(p: Path) returns (ok: bool)
      requires Valid()
      modifies this
      ensures Valid()
      ensures ok <==> p in old(entries) && old(entries)[p] == File && p !in locked
      ensures entries == if ok then old(entries) - {p} else old(entries)
    {
      ok := p in entries && entries[p] == File && p !in locked;
      if ok {
        RemoveFileKeepsTree(entries, p);
        entries := entries - {p};
      }
    }

    /** `shutil.rmtree(d)`: removes a directory with everything below it, or
        raises when `d` is not a directory or holds a locked entry. */
    method RemoveTree(d: Path) returns (ok: bool)
      requires Valid()
      modifies this
      ensures Valid()
      ensures ok <==> IsDir(old(entries), d) && !TreeBlocked(old(entries), locked, d)
      ensures entries == if ok then WithoutTree(old(entries), d) else old(entries)
    {
      ok := IsDir(entries, d) && !(exists p :: p in entries && p in locked && d <= p);
      if ok {
        WithoutTreeKeepsTree(entries, d);
        entries := WithoutTree(entries, d);
      }
    }

    /** Removes the children `d + [n]` of `d`, for each `n` of `names` in
        order: a regular file with `os.remove`, a directory with
        `shutil.rmtree`. The first removal that raises stops the loop, and
        what was removed before it stays removed: the children before it
        are gone, and the child it could not remove holds a locked entry. */
    method RemoveEach(d: Path, names: seq<string>) returns (ok: bool)
      requires Valid()
      requires forall i :: 0 <= i < |names| ==> names[i] in ChildNames(entries, d)
      requires forall i, j :: 0 <= i < j < |names| ==> names[i] != names[j]
      modifies this
      ensures Valid()
      ensures ok <==> !ChildrenBlocked(old(entries), locked, d, set n | n in names)
      ensures ok ==> entries == WithoutChildren(old(entries), d, set n | n in names)
      ensures !ok ==> exists k ::
        && 0 <= k < |names|
        && entries == WithoutChildren(old(entries), d, set j | 0 <= j < k :: names[j])
        && !ChildrenBlocked(old(entries), locked, d, set j | 0 <= j < k :: names[j])
        && ChildrenBlocked(old(entries), locked, d, {names[k]})
    {
      ghost var m0 := entries;
      ghost var all := set n | n in names;
      ghost var done: set<string> := {};
      var i := 0;
      ok := true;
      while i < |names|
        invariant 0 <= i <= |names|
        invariant Valid()
        invariant done <= all
        invariant done == set j | 0 <= j < i :: names[j]
        invariant forall j :: i <= j < |names| ==> names[j] !in done
        invariant entries == WithoutChildren(m0, d, done)
        invariant !ChildrenBlocked(m0, locked, d, done)
      {
        var n := names[i];
        var c := d + [n];
        ChildPath(m0, d, n);
        ghost var before := entries;
        if IsDir(entries, c) {
          ok := RemoveTree(c);
          RemoveTreeStep(m0, locked, d, done, all, n, before);
        } else {
          ok := Remove(c);
          RemoveFileStep(m0, locked, d, done, all, n, before);
        }
        if !ok {
          return;
        }
        done := done + {n};
        i := i + 1;
      }
      assert done == all;
    }

    /** `os.makedirs(d, exist_ok=True)`: creates `d` and its missing parents. */
    method MakeDirs(d: Path)
      requires Valid() && |d| > 0 && DirsOrAbsent(entries, d)
      modifies this
      ensures Valid()
      ensures entries == WithDirs(old(entries), d)
    {
      WithDirsKeepsTree(entries, d);
      entries := WithDirs(entries, d);
    }

    /** Writing a file at `p` (a recording, an image, a model): creates or
        overwrites it, or raises when the parent directory is missing or a
        directory stands at `p`. */
    method WriteFile(p: Path) returns (ok: bool)
      requires Valid()
      modifies this
      ensures Valid()
      ensures ok <==> CanWrite(old(entries), p)
      ensures entries == if ok then old(entries)[p := File] else old(entries)
    {
      ok := CanWrite(entries, p);
      if ok {
        WriteKeepsTree(entries, p);
        entries := entries[p := File];
      }
    }
  }
}
