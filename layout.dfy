/** Where the assistant keeps its artifacts, as paths relative to the
    working directory the application is started from. */
module Layout {
  import opened FileStore

  const VoiceSamplesDir: Path := ["backend", "voice_auth", "samples", "user_1"]
  const VoiceModelsDir: Path := ["backend", "voice_auth", "models"]
  /** The base name every voice-model file starts with. */
  const VoiceModelBase: string := "user_1_voice_model"
  /** The file whose presence means "a voice is enrolled". */
  const PrimaryModelFile: Path := VoiceModelsDir + [VoiceModelBase + ".svm_classifier_MEANS"]
  const VerificationTempDir: Path := ["backend", "voice_auth", "temp_verification_samples"]
  const VerificationSample: Path := VerificationTempDir + ["verification_sample.wav"]

  const FaceSamplesDir: Path := ["backend", "auth", "samples"]
  const FaceTrainerDir: Path := ["backend", "auth", "trainer"]
  const FaceTrainerFile: Path := FaceTrainerDir + ["trainer.yml"]
  const CascadeFile: Path := ["backend", "auth", "haarcascade_frontalface_default.xml"]

  /** The directories that are created outside any exception handler. */
  const LayoutDirs: set<Path> := {VoiceSamplesDir, VoiceModelsDir, VerificationTempDir, FaceSamplesDir}

  /** No regular file stands where one of those directories, or one of their
      parents, belongs. Where one does, `os.makedirs` or `os.listdir` raises
      outside any handler and the whole call fails; the model does not follow
      that path. */
  ghost predicate WellPlaced(m: map<Path, Kind>) {
    forall d :: d in LayoutDirs ==> DirsOrAbsent(m, d)
  }

  /** Writing a regular file at `p` cannot spoil the layout. */
  ghost predicate ClearOfLayout(p: Path) {
    forall d :: d in LayoutDirs ==> !(p <= d)
  }

  /** Removing entries keeps the layout. */
  lemma SubmapKeepsWellPlaced(m: map<Path, Kind>, m': map<Path, Kind>)
    requires WellPlaced(m)
    requires forall p :: p in m' ==> p in m && m'[p] == m[p]
    ensures WellPlaced(m')
  {
  }

  /** Creating directories keeps the layout. */
  lemma WithDirsKeepsWellPlaced(m: map<Path, Kind>, d: Path)
    requires WellPlaced(m)
    ensures WellPlaced(WithDirs(m, d))
  {
    forall e, k | e in LayoutDirs && 1 <= k <= |e| && e[..k] in WithDirs(m, d)
      ensures WithDirs(m, d)[e[..k]] == Dir
    {
      if e[..k] !in Prefixes(d) {
        assert DirsOrAbsent(m, e);
      }
    }
  }

  /** Writing a file away from the layout keeps it. */
  lemma WriteKeepsWellPlaced(m: map<Path, Kind>, p: Path)
    requires WellPlaced(m) && ClearOfLayout(p)
    ensures WellPlaced(m[p := File])
  {
    forall e, k | e in LayoutDirs && 1 <= k <= |e| && e[..k] in m[p := File]
      ensures m[p := File][e[..k]] == Dir
    {
      assert DirsOrAbsent(m, e);
      assert e[..k] <= e;
    }
  }

  lemma DeepPathClear(p: Path)
    requires |p| > 4
    ensures ClearOfLayout(p)
  {
  }

  lemma ModelFileClear(name: string)
    ensures ClearOfLayout(VoiceModelsDir + [name])
  {
    var p := VoiceModelsDir + [name];
    assert p[2] == "models";
    assert VoiceSamplesDir[2] == "samples";
  }

  lemma VerificationSampleClear()
    ensures ClearOfLayout(VerificationSample)
  {
    assert VerificationSample[2] == "temp_verification_samples";
    assert VoiceSamplesDir[2] == "samples";
  }

  lemma FaceFileClear(dir: Path, name: string)
    requires dir == FaceSamplesDir || dir == FaceTrainerDir
    ensures ClearOfLayout(dir + [name])
  {
    var p := dir + [name];
    assert p[1] == "auth";
    assert VoiceSamplesDir[1] == "voice_auth";
  }

  /** The store after `os.makedirs(d)` guarded by `os.path.exists(d)`:
      created when missing, left alone when present. */
  ghost function Ensured(m: map<Path, Kind>, d: Path): map<Path, Kind> {
    if d in m then m else WithDirs(m, d)
  }

  /** `if not os.path.exists(d): os.makedirs(d)` for one of the layout's
      directories, which is a directory afterwards. */
  method EnsureDir(disk: Disk, d: Path)
    requires d in LayoutDirs
    requires disk.Valid() && WellPlaced(disk.entries)
    modifies disk
    ensures disk.Valid() && WellPlaced(disk.entries)
    ensures disk.entries == Ensured(old(disk.entries), d)
    ensures IsDir(disk.entries, d)
  {
    assert DirsOrAbsent(disk.entries, d);
    assert d[..|d|] == d;
    if !disk.Exists(d) {
      WithDirsKeepsWellPlaced(disk.entries, d);
      disk.MakeDirs(d);
      assert d in Prefixes(d);
    }
  }
}
