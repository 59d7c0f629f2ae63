/** `train_voice_model`: trains the speaker model on the enrolled samples,
    replacing every file of the previous model. */
module VoiceTrainer {
  import opened Common
  import opened FileStore
  import opened Layout
  import opened Ui

  /** What `extract_features_and_train` does with the samples: it writes
      model files named `user_1_voice_model<suffix>` into the models
      directory, and then returns or raises; one that raises may already
      have written some. */
  datatype Fit = FitRaises(suffixes: seq<string>) | FitWrites(suffixes: seq<string>)

  function ModelPath(suffix: string): Path {
    VoiceModelsDir + [VoiceModelBase + suffix]
  }

  /** The files a fit writing `suffixes` creates. */
  function ModelPaths(suffixes: seq<string>): set<Path> {
    if |suffixes| == 0 then {}
    else ModelPaths(suffixes[..|suffixes| - 1]) + {ModelPath(suffixes[|suffixes| - 1])}
  }

  lemma {:induction false} ModelPathsHolds(suffixes: seq<string>, p: Path)
    ensures p in ModelPaths(suffixes) <==> exists i :: 0 <= i < |suffixes| && p == ModelPath(suffixes[i])
  {
    if |suffixes| > 0 {
      var init := suffixes[..|suffixes| - 1];
      ModelPathsHolds(init, p);
      if p in ModelPaths(init) {
        var i :| 0 <= i < |init| && p == ModelPath(init[i]);
        assert suffixes[i] == init[i];
      }
      if exists i :: 0 <= i < |suffixes| && p == ModelPath(suffixes[i]) {
        var i :| 0 <= i < |suffixes| && p == ModelPath(suffixes[i]);
        if i < |init| {
          assert init[i] == suffixes[i];
        }
      }
    }
  }

  /** The names the pattern `user_1_voice_model*` matches, in order. */
  function Glob(names: seq<string>): (r: seq<string>)
    ensures forall n :: n in r <==> n in names && StartsWith(n, VoiceModelBase)
    ensures (forall i, j :: 0 <= i < j < |names| ==> names[i] != names[j]) ==>
              forall i, j :: 0 <= i < j < |r| ==> r[i] != r[j]
  {
    if |names| == 0 then []
    else (if StartsWith(names[0], VoiceModelBase) then [names[0]] else []) + Glob(names[1..])
  }

  /** The names of the model files present in the models directory. */
  function ModelNames(m: map<Path, Kind>): set<string> {
    set n | n in ChildNames(m, VoiceModelsDir) && StartsWith(n, VoiceModelBase)
  }

  /** The guard at the top: the samples directory exists and lists something. */
  predicate HasSamples(m: map<Path, Kind>) {
    VoiceSamplesDir in m && ChildNames(m, VoiceSamplesDir) != {}
  }

  /** Some file of the previous model cannot be removed, once the models
      directory exists. */
  ghost predicate CleanupBlocked(m: map<Path, Kind>, locked: set<Path>) {
    var m1 := Ensured(m, VoiceModelsDir);
    ChildrenBlocked(m1, locked, VoiceModelsDir, ModelNames(m1))
  }

  /** The store after the previous model is removed. */
  ghost function Cleaned(m: map<Path, Kind>): map<Path, Kind> {
    var m1 := Ensured(m, VoiceModelsDir);
    WithoutChildren(m1, VoiceModelsDir, ModelNames(m1))
  }

  /** The store after a training that gets past the cleanup: the files the
      fit wrote stay even when it raised, as nothing removes them. */
  ghost function Trained(m: map<Path, Kind>, fit: Fit): map<Path, Kind> {
    WithFiles(Cleaned(m), ModelPaths(fit.suffixes))
  }

  /** The message training ends with. */
  ghost function TrainingReport(m: map<Path, Kind>, locked: set<Path>, fit: Fit): Progress {
    if !HasSamples(m) then SamplesMissing
    else if CleanupBlocked(m, locked) || fit.FitRaises? then TrainingFailed
    else if |fit.suffixes| > 0 then ModelTrained
    else NoModelFile
  }

  function Start(): seq<Event> {
    [ShowInfo(Note(TrainingStart(false))), Speak(Note(TrainingStart(true)))]
  }

  /** `not os.path.exists(d) or not os.listdir(d)` on the samples directory. */
  method SamplesPresent(disk: Disk) returns (present: bool)
    requires disk.Valid() && WellPlaced(disk.entries)
    ensures present == HasSamples(disk.entries)
  {
    present := disk.Exists(VoiceSamplesDir);
    if present {
      assert DirsOrAbsent(disk.entries, VoiceSamplesDir);
      assert VoiceSamplesDir[..|VoiceSamplesDir|] == VoiceSamplesDir;
      var names := disk.ListDir(VoiceSamplesDir);
      present := |names| > 0;
      if present {
        assert names[0] in ChildNames(disk.entries, VoiceSamplesDir);
      } else {
        assert ChildNames(disk.entries, VoiceSamplesDir) == {};
      }
    }
  }

  /** The `glob` and removal loop: each file of the previous model goes with
      `os.remove`, each directory with `shutil.rmtree`, and the first removal
      that raises stops it. */
  method RemoveOldModel(disk: Disk) returns (ok: bool)
    requires disk.Valid() && WellPlaced(disk.entries) && IsDir(disk.entries, VoiceModelsDir)
    modifies disk
    ensures disk.Valid() && WellPlaced(disk.entries)
    ensures var m := old(disk.entries);
      && (ok <==> !ChildrenBlocked(m, disk.locked, VoiceModelsDir, ModelNames(m)))
      && (ok ==> disk.entries == WithoutChildren(m, VoiceModelsDir, ModelNames(m)))
      && (!ok ==> StoppedPart(m, disk.locked, VoiceModelsDir, ModelNames(m), disk.entries))
  {
    ghost var m := disk.entries;
    var names := disk.ListDir(VoiceModelsDir);
    var old_files := Glob(names);
    assert (set n | n in old_files) == ModelNames(m);
    ok := disk.RemoveEach(VoiceModelsDir, old_files);
    if !ok {
      ghost var k :| 0 <= k < |old_files|
        && disk.entries == WithoutChildren(m, VoiceModelsDir, set j | 0 <= j < k :: old_files[j])
        && !ChildrenBlocked(m, disk.locked, VoiceModelsDir, set j | 0 <= j < k :: old_files[j])
        && ChildrenBlocked(m, disk.locked, VoiceModelsDir, {old_files[k]});
      PrefixStop(m, disk.locked, VoiceModelsDir, old_files, k, disk.entries);
    }
    SubmapKeepsWellPlaced(m, disk.entries);
  }

  /** The fit writing its files, one per suffix. None of them can fail:
      after the cleanup no directory carries a model name. */
  method WriteModelFiles(disk: Disk, suffixes: seq<string>)
    requires disk.Valid() && WellPlaced(disk.entries)
    requires IsDir(disk.entries, VoiceModelsDir) && ModelNames(disk.entries) == {}
    modifies disk
    ensures disk.Valid() && WellPlaced(disk.entries)
    ensures disk.entries == WithFiles(old(disk.entries), ModelPaths(suffixes))
  {
    ghost var m := disk.entries;
    assert WithFiles(m, ModelPaths(suffixes[..0])) == m;
    var i := 0;
    while i < |suffixes|
      invariant 0 <= i <= |suffixes|
      invariant disk.Valid() && WellPlaced(disk.entries)
      invariant disk.entries == WithFiles(m, ModelPaths(suffixes[..i]))
    {
      var path := ModelPath(suffixes[i]);
      WithFilesIsDir(m, ModelPaths(suffixes[..i]), VoiceModelsDir);
      WithFilesIsDir(m, ModelPaths(suffixes[..i]), path);
      NotAModel(m, suffixes[i]);
      ModelFileClear(VoiceModelBase + suffixes[i]);
      WriteKeepsWellPlaced(disk.entries, path);
      var written := disk.WriteFile(path);
      assert written;
      WithFilesStep(m, ModelPaths(suffixes[..i]), path);
      assert suffixes[..i + 1][..i] == suffixes[..i];
      i := i + 1;
    }
    assert suffixes[..i] == suffixes;
  }

  lemma ModelNameStarts(suffix: string)
    ensures StartsWith(VoiceModelBase + suffix, VoiceModelBase)
  {
    assert (VoiceModelBase + suffix)[..|VoiceModelBase|] == VoiceModelBase;
  }

  /** A name with the model prefix is listed exactly when its file is there. */
  lemma ListedModel(m: map<Path, Kind>, n: string)
    requires StartsWith(n, VoiceModelBase)
    ensures n in ModelNames(m) <==> VoiceModelsDir + [n] in m
  {
    var p := VoiceModelsDir + [n];
    if p in m {
      assert p[3] == n && VoiceModelsDir <= p;
    }
    if n in ModelNames(m) {
      var q :| q in m && |q| == 4 && VoiceModelsDir <= q && q[3] == n;
      assert q == p;
    }
  }

  /** With no model file listed, every model path is free. */
  lemma NotAModel(m: map<Path, Kind>, suffix: string)
    requires ModelNames(m) == {}
    ensures ModelPath(suffix) !in m
  {
    ModelNameStarts(suffix);
    ListedModel(m, VoiceModelBase + suffix);
  }

  /** `any(glob.glob(MODEL_NAME_BASE + "*"))` */
  method ModelFound(disk: Disk) returns (found: bool)
    requires IsDir(disk.entries, VoiceModelsDir)
    ensures found <==> ModelNames(disk.entries) != {}
  {
    var names := disk.ListDir(VoiceModelsDir);
    var matches := Glob(names);
    found := |matches| > 0;
    if found {
      assert matches[0] in ModelNames(disk.entries);
    }
  }

  /** Returns whether a model was trained. The samples directory must exist
      and list something; the previous model's files are removed, the fit
      writes the new ones, and the outcome is read back with `glob`. Any
      exception from the cleanup or the fit is reported and gives false. */
  method TrainVoiceModel(disk: Disk, ui: Channel, fit: Fit) returns (ok: bool)
    requires disk.Valid() && WellPlaced(disk.entries)
    modifies disk, ui
    ensures disk.Valid() && WellPlaced(disk.entries)
    ensures var report := TrainingReport(old(disk.entries), disk.locked, fit);
      && ok == (report == ModelTrained)
      && ui.events == old(ui.events) + Start() + Report(report)
    ensures var m := old(disk.entries);
      && (!HasSamples(m) ==> disk.entries == m)
      && (HasSamples(m) && !CleanupBlocked(m, disk.locked) ==> disk.entries == Trained(m, fit))
      && (HasSamples(m) && CleanupBlocked(m, disk.locked) ==>
            var m1 := Ensured(m, VoiceModelsDir);
            StoppedPart(m1, disk.locked, VoiceModelsDir, ModelNames(m1), disk.entries))
  {
    ui.EmitAll(Start());
    var present := SamplesPresent(disk);
    if !present {
      ui.EmitAll(Report(SamplesMissing));
      return false;
    }
    EnsureDir(disk, VoiceModelsDir);
    ghost var m1 := disk.entries;
    // The `os.path.isdir` guard that follows in the source cannot fail here:
    // the samples directory exists, and where it exists it is a directory.
    var cleaned := RemoveOldModel(disk);
    if !cleaned {
      ui.EmitAll(Report(TrainingFailed));
      return false;
    }
    ghost var m2 := disk.entries;
    CleanedHasNoModel(m1);
    WriteModelFiles(disk, fit.suffixes);
    if fit.FitRaises? {
      ui.EmitAll(Report(TrainingFailed));
      return false;
    }
    WithFilesIsDir(m2, ModelPaths(fit.suffixes), VoiceModelsDir);
    var found := ModelFound(disk);
    TrainedModelNames(old(disk.entries), fit.suffixes);
    if |fit.suffixes| > 0 {
      assert VoiceModelBase + fit.suffixes[0] in ModelNames(disk.entries);
    }
    if found {
      ui.EmitAll(Report(ModelTrained));
      ok := true;
    } else {
      ui.EmitAll(Report(NoModelFile));
      ok := false;
    }
  }

  /** After the cleanup no model file is listed. */
  lemma CleanedHasNoModel(m: map<Path, Kind>)
    ensures ModelNames(WithoutChildren(m, VoiceModelsDir, ModelNames(m))) == {}
  {
  }

  /** The model files listed after a successful fit are exactly those it
      wrote: no file of the previous model survives the training. */
  lemma TrainedModelNames(m: map<Path, Kind>, suffixes: seq<string>)
    ensures ModelNames(WithFiles(Cleaned(m), ModelPaths(suffixes))) ==
      set s | s in suffixes :: VoiceModelBase + s
  {
    var c := Cleaned(m);
    var f := WithFiles(c, ModelPaths(suffixes));
    var written := set s | s in suffixes :: VoiceModelBase + s;
    CleanedHasNoModel(Ensured(m, VoiceModelsDir));
    forall n | n in ModelNames(f)
      ensures n in written
    {
      var p := VoiceModelsDir + [n];
      ListedModel(f, n);
      ListedModel(c, n);
      ModelPathsHolds(suffixes, p);
      var i :| 0 <= i < |suffixes| && p == ModelPath(suffixes[i]);
      assert p[3] == n;
    }
    forall s | s in suffixes
      ensures VoiceModelBase + s in ModelNames(f)
    {
      var i :| 0 <= i < |suffixes| && suffixes[i] == s;
      ModelNameStarts(s);
      ModelPathsHolds(suffixes, ModelPath(s));
      ListedModel(c, VoiceModelBase + s);
      ListedModel(f, VoiceModelBase + s);
    }
  }

  /** Training never touches the enrolled samples it trains on. */
  lemma TrainingKeepsSamples(m: map<Path, Kind>, fit: Fit, p: Path)
    requires VoiceSamplesDir <= p
    ensures p in Trained(m, fit) <==> p in m
    ensures p in m ==> Trained(m, fit)[p] == m[p]
  {
    assert p[2] == "samples";
    var m1 := Ensured(m, VoiceModelsDir);
    assert p in m1 <==> p in m;
    ModelPathsHolds(fit.suffixes, p);
  }

  /** After a fit that gets past the cleanup, the file verification looks
      for is there exactly when the fit wrote it under that name. */
  lemma TrainedPrimaryModel(m: map<Path, Kind>, suffixes: seq<string>)
    ensures PrimaryModelFile in WithFiles(Cleaned(m), ModelPaths(suffixes))
      <==> ".svm_classifier_MEANS" in suffixes
  {
    var f := WithFiles(Cleaned(m), ModelPaths(suffixes));
    var n := VoiceModelBase + ".svm_classifier_MEANS";
    ModelNameStarts(".svm_classifier_MEANS");
    ListedModel(f, n);
    TrainedModelNames(m, suffixes);
    assert PrimaryModelFile == VoiceModelsDir + [n];
    if n in ModelNames(f) {
      var s :| s in suffixes && n == VoiceModelBase + s;
      assert s == n[|VoiceModelBase|..];
    }
  }
}
