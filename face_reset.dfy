/** `delete_existing_face_data`: removes every face sample image the samples
    glob matches, one by one, and then the trained face model. Each removal
    that raises is reported and skipped; nothing escapes the function. */
module FaceReset {
  import opened FileStore
  import opened Layout

  /** `glob`'s `*` does not match a name that starts with a dot. */
  predicate Hidden(n: string) {
    |n| > 0 && n[0] == '.'
  }

  /** The names `glob.glob(SAMPLES_PATH + '*')` matches inside the samples
      directory: every entry directly inside it, except hidden ones. */
  function Matched(m: map<Path, Kind>): set<string> {
    set n | n in ChildNames(m, FaceSamplesDir) && !Hidden(n)
  }

  function SamplePath(n: string): Path {
    FaceSamplesDir + [n]
  }

  /** `os.remove(p)` succeeds: a regular file that is not locked. */
  ghost predicate Removable(m: map<Path, Kind>, locked: set<Path>, p: Path) {
    p in m && m[p] == File && p !in locked
  }

  /** `p` is a sample `SamplePath(n)`, `n` in `names`, that `os.remove` can
      take away from `m`. */
  ghost predicate Swept(m: map<Path, Kind>, locked: set<Path>, names: set<string>, p: Path) {
    |p| == |FaceSamplesDir| + 1 && FaceSamplesDir < p && p[|FaceSamplesDir|] in names && Removable(m, locked, p)
  }

  /** `m` after `os.remove(SamplePath(n))` for every `n` in `names`, in any
      order, each failure skipped. */
  ghost function AfterSweep(m: map<Path, Kind>, locked: set<Path>, names: set<string>): (r: map<Path, Kind>)
    ensures forall p :: p in r <==> p in m && !Swept(m, locked, names, p)
  {
    map p | p in m && !Swept(m, locked, names, p) :: m[p]
  }

  /** The store a call leaves: the removable matched samples gone, then the
      trainer file gone when it is a removable regular file. */
  ghost function FaceCleared(m: map<Path, Kind>, locked: set<Path>): map<Path, Kind> {
    var s := AfterSweep(m, locked, Matched(m));
    if Removable(m, locked, FaceTrainerFile) then s - {FaceTrainerFile} else s
  }

  /** `glob`'s filter over a directory listing. */
  function Visible(names: seq<string>): (r: seq<string>)
    ensures forall n :: n in r <==> n in names && !Hidden(n)
    ensures (forall i, j :: 0 <= i < j < |names| ==> names[i] != names[j]) ==>
      forall a, b :: 0 <= a < b < |r| ==> r[a] != r[b]
  {
    if |names| == 0 then []
    else (if Hidden(names[0]) then [] else [names[0]]) + Visible(names[1..])
  }

  /** Without a samples directory there is nothing for the glob to match. */
  lemma NoMatchWithoutDir(m: map<Path, Kind>)
    requires Tree(m) && !IsDir(m, FaceSamplesDir)
    ensures Matched(m) == {}
  {
    forall n | n in ChildNames(m, FaceSamplesDir)
      ensures false
    {
      ChildPath(m, FaceSamplesDir, n);
      assert Stored(m, SamplePath(n));
    }
  }

  /** One `os.remove` of the loop: the sample `SamplePath(n)` is still as
      it was, and removing it when possible extends the sweep by `n`. */
  lemma SweepStep(m: map<Path, Kind>, locked: set<Path>, done: set<string>, n: string)
    requires n !in done
    ensures var e := AfterSweep(m, locked, done);
      && (Removable(e, locked, SamplePath(n)) <==> Removable(m, locked, SamplePath(n)))
      && AfterSweep(m, locked, done + {n}) ==
           if Removable(m, locked, SamplePath(n)) then e - {SamplePath(n)} else e
  {
    var p := SamplePath(n);
    assert p[|FaceSamplesDir|] == n;
    forall q | |q| == |FaceSamplesDir| + 1 && FaceSamplesDir < q && q[|FaceSamplesDir|] == n
      ensures q == p
    {
      assert q == q[..|FaceSamplesDir|] + [q[|FaceSamplesDir|]];
    }
  }

  /** The loop over the glob's matches: `os.remove` of each, a failure
      skipped without stopping the loop. */
  method RemoveSamples(disk: Disk, names: seq<string>, ghost m: map<Path, Kind>)
    requires disk.Valid() && disk.entries == m
    requires forall i, j :: 0 <= i < j < |names| ==> names[i] != names[j]
    modifies disk
    ensures disk.Valid()
    ensures disk.entries == AfterSweep(m, disk.locked, set n | n in names)
  {
    ghost var done: set<string> := {};
    var i := 0;
    while i < |names|
      invariant 0 <= i <= |names|
      invariant disk.Valid()
      invariant done == set j | 0 <= j < i :: names[j]
      invariant disk.entries == AfterSweep(m, disk.locked, done)
    {
      assert names[i] !in done;
      SweepStep(m, disk.locked, done, names[i]);
      var _ := disk.Remove(SamplePath(names[i]));
      done := done + {names[i]};
      i := i + 1;
    }
    assert done == set n | n in names;
  }

  /** `delete_existing_face_data`. */
  method DeleteExistingFaceData(disk: Disk)
    requires disk.Valid()
    modifies disk
    ensures disk.Valid()
    ensures disk.entries == FaceCleared(old(disk.entries), disk.locked)
  {
    ghost var m := disk.entries;
    var matched: seq<string> := [];
    if disk.IsDirectory(FaceSamplesDir) {
      var listed := disk.ListDir(FaceSamplesDir);
      matched := Visible(listed);
    } else {
      NoMatchWithoutDir(m);
    }
    assert (set n | n in matched) == Matched(m);
    RemoveSamples(disk, matched, m);
    assert FaceTrainerFile[2] != FaceSamplesDir[2] by {
      assert FaceTrainerFile[2][0] != FaceSamplesDir[2][0];
    }
    if disk.Exists(FaceTrainerFile) {
      var _ := disk.Remove(FaceTrainerFile);
    }
  }

  /** A sample the glob matches is gone afterwards exactly when `os.remove`
      could take it, whatever happened to the other samples; entries the
      glob does not match, other than the trainer file, stay as they were. */
  lemma SampleFate(m: map<Path, Kind>, locked: set<Path>, p: Path)
    requires p in m && p != FaceTrainerFile
    ensures var r := FaceCleared(m, locked);
      && (|p| == |FaceSamplesDir| + 1 && FaceSamplesDir < p && !Hidden(p[|FaceSamplesDir|]) ==>
            (p !in r <==> Removable(m, locked, p)))
      && (p in r ==> r[p] == m[p])
  {
    if |p| == |FaceSamplesDir| + 1 && FaceSamplesDir < p {
      assert p[|FaceSamplesDir|] in ChildNames(m, FaceSamplesDir);
    }
  }

  /** Nothing to match and no trainer file: the call changes nothing. */
  lemma NothingToDelete(m: map<Path, Kind>, locked: set<Path>)
    requires Matched(m) == {} && FaceTrainerFile !in m
    ensures FaceCleared(m, locked) == m
  {
    assert AfterSweep(m, locked, {}) == m;
  }

  /** A second call right after a first changes nothing: what the first one
      left in place, it could not remove. */
  lemma FaceResetIdempotent(m: map<Path, Kind>, locked: set<Path>)
    ensures FaceCleared(FaceCleared(m, locked), locked) == FaceCleared(m, locked)
  {
    var r := FaceCleared(m, locked);
    forall n | n in Matched(r)
      ensures n in Matched(m) && !Removable(r, locked, SamplePath(n))
    {
      var q :| q in r && |q| == |FaceSamplesDir| + 1 && FaceSamplesDir <= q && q[|FaceSamplesDir|] == n;
      assert q == SamplePath(n);
      assert n in ChildNames(m, FaceSamplesDir);
    }
    assert AfterSweep(r, locked, Matched(r)) == r;
  }
}
