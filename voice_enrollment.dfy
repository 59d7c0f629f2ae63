/** `collect_voice_samples`: records the passphrase five times and saves
    each recording as `sample_<n>.wav` in the user's samples directory,
    giving up at the first recording or save that fails. */
module VoiceEnrollment {
  import opened Common
  import opened FileStore
  import opened Layout
  import opened Ui

  const SampleRate: nat := 16000
  const DurationPerSample: nat := 4
  const NumSamplesRequired: nat := 5
  const Passphrase: string := "Hello Jarvis activate"
  /** The number of frames each recording asks the microphone for. */
  const FramesPerSample: nat := DurationPerSample * SampleRate

  function SampleName(n: nat): string {
    "sample_" + NatToString(n) + ".wav"
  }

  function SamplePath(n: nat): Path {
    VoiceSamplesDir + [SampleName(n)]
  }

  /** Different sample numbers give different file names. */
  lemma SampleNameInjective(a: nat, b: nat)
    requires SampleName(a) == SampleName(b)
    ensures a == b
  {
    var sa, sb := NatToString(a), NatToString(b);
    assert |sa| == |sb|;
    assert sa == SampleName(a)[7..7 + |sa|];
    assert sb == SampleName(b)[7..7 + |sb|];
    ParseNatToString(a);
    ParseNatToString(b);
  }

  /** The microphone: `record(n, frames)` tells whether recording sample `n`
      with `frames` frames succeeds. */
  type Recorder = (nat, nat) -> bool

  /** Sample `n` is recorded and saved. The samples directory exists by then,
      so the save fails only when a directory stands at the sample's path. */
  ghost predicate Saves(m: map<Path, Kind>, record: Recorder, n: nat) {
    record(n, FramesPerSample) && !IsDir(m, SamplePath(n))
  }

  /** The first sample, counting from `n`, that is not saved, or 6 when
      every sample up to the fifth is. */
  ghost function FirstFailure(m: map<Path, Kind>, record: Recorder, n: nat): (k: nat)
    requires 1 <= n <= NumSamplesRequired + 1
    ensures n <= k <= NumSamplesRequired + 1
    ensures forall j :: n <= j < k ==> Saves(m, record, j)
    ensures k <= NumSamplesRequired ==> !Saves(m, record, k)
    decreases NumSamplesRequired + 1 - n
  {
    if n > NumSamplesRequired then n
    else if Saves(m, record, n) then FirstFailure(m, record, n + 1)
    else n
  }

  lemma {:induction false} FirstFailureIs(m: map<Path, Kind>, record: Recorder, a: nat, k: nat)
    requires 1 <= a <= k <= NumSamplesRequired + 1
    requires forall j :: a <= j < k ==> Saves(m, record, j)
    requires k <= NumSamplesRequired ==> !Saves(m, record, k)
    ensures FirstFailure(m, record, a) == k
    decreases k - a
  {
    if a < k {
      FirstFailureIs(m, record, a + 1, k);
    }
  }

  /** A saved sample is not the first failure. */
  lemma SavedBeforeFailure(m: map<Path, Kind>, record: Recorder, k: nat, n: nat)
    requires k == FirstFailure(m, record, 1) && 1 <= n <= k && n <= NumSamplesRequired
    requires Saves(m, record, n)
    ensures n < k
  {
  }

  /** The paths of samples 1 to k - 1. */
  function Written(k: nat): set<Path> {
    if k <= 1 then {} else Written(k - 1) + {SamplePath(k - 1)}
  }

  lemma {:induction false} WrittenHolds(k: nat, p: Path)
    ensures p in Written(k) <==> exists j :: 1 <= j < k && p == SamplePath(j)
  {
    if k > 1 {
      WrittenHolds(k - 1, p);
    }
  }

  function Intro(): seq<Event> {
    [ShowInfo(Note(EnrollmentIntro(Passphrase, NumSamplesRequired))),
     Speak(Note(EnrollmentWelcome(Passphrase)))]
  }

  /** The prompts before recording sample `n`. */
  function Prompts(n: nat): seq<Event> {
    [ShowInfo(Note(SamplePrompt(n, NumSamplesRequired, Passphrase))),
     Speak(Note(SamplePrompt(n, NumSamplesRequired, Passphrase))),
     ShowInfo(Note(Countdown(3))), ShowInfo(Note(Countdown(2))), ShowInfo(Note(Countdown(1))),
     ShowInfo(Note(RecordingNow(true))), Speak(Note(RecordingNow(true)))]
  }

  function Saved(n: nat): seq<Event> {
    Report(SampleSaved(n))
  }

  function Collected(): seq<Event> {
    Report(SamplesCollected(NumSamplesRequired))
  }

  function Failed(n: nat): seq<Event> {
    Report(SampleFailed(n))
  }

  /** The reports of samples 1 to k - 1, each prompted and saved. */
  function Rounds(k: nat): seq<Event> {
    if k <= 1 then []
    else Rounds(k - 1) + Prompts(k - 1) + Saved(k - 1)
  }

  /** What follows the saved samples: the failed sample's prompts and
      failure report, or the closing report when all five are saved. */
  function Ending(k: nat): seq<Event> {
    if k <= NumSamplesRequired then Prompts(k) + Failed(k) else Collected()
  }

  /** Everything reported when sample `k` is the first not saved (6: none). */
  function EnrollmentEvents(k: nat): seq<Event> {
    Intro() + Rounds(k) + Ending(k)
  }

  lemma {:induction false} RoundsQuiet(k: nat)
    ensures Quiet(Rounds(k))
  {
    if k > 1 {
      RoundsQuiet(k - 1);
    }
  }

  /** Enrollment only reports progress: it never signals the front end. */
  lemma EnrollmentQuiet(k: nat)
    ensures Quiet(EnrollmentEvents(k))
  {
    RoundsQuiet(k);
  }

  /** The prompts and countdown before recording sample `n`. */
  method PromptForSample(ui: Channel, n: nat)
    modifies ui
    ensures ui.events == old(ui.events) + Prompts(n)
  {
    ui.Emit(ShowInfo(Note(SamplePrompt(n, NumSamplesRequired, Passphrase))));
    ui.Emit(Speak(Note(SamplePrompt(n, NumSamplesRequired, Passphrase))));
    ui.CountDown();
    ui.Emit(ShowInfo(Note(RecordingNow(true))));
    ui.Emit(Speak(Note(RecordingNow(true))));
  }

  /** Records sample `n` and saves it as `sample_<n>.wav`. */
  method SaveSample(disk: Disk, record: Recorder, n: nat, ghost m1: map<Path, Kind>)
    returns (saved: bool)
    requires 1 <= n <= NumSamplesRequired
    requires disk.Valid() && WellPlaced(disk.entries) && IsDir(m1, VoiceSamplesDir)
    requires disk.entries == WithFiles(m1, Written(n))
    modifies disk
    ensures disk.Valid() && WellPlaced(disk.entries)
    ensures saved == Saves(m1, record, n)
    ensures disk.entries == if saved then WithFiles(m1, Written(n + 1)) else old(disk.entries)
  {
    var path := VoiceSamplesDir + [SampleName(n)];
    saved := false;
    if record(n, FramesPerSample) {
      WithFilesIsDir(m1, Written(n), path);
      WithFilesIsDir(m1, Written(n), VoiceSamplesDir);
      DeepPathClear(path);
      WriteKeepsWellPlaced(disk.entries, path);
      saved := disk.WriteFile(path);
    }
    if saved {
      WithFilesStep(m1, Written(n), path);
    }
  }

  /** One round of the loop: prompt, record and save sample `n`, then
      report whether it was saved. */
  method CollectSample(disk: Disk, ui: Channel, record: Recorder, n: nat, ghost m1: map<Path, Kind>)
    returns (saved: bool)
    requires 1 <= n <= NumSamplesRequired
    requires disk.Valid() && WellPlaced(disk.entries) && IsDir(m1, VoiceSamplesDir)
    requires disk.entries == WithFiles(m1, Written(n))
    modifies disk, ui
    ensures disk.Valid() && WellPlaced(disk.entries)
    ensures saved == Saves(m1, record, n)
    ensures disk.entries == if saved then WithFiles(m1, Written(n + 1)) else old(disk.entries)
    ensures ui.events == old(ui.events) + Prompts(n) + (if saved then Saved(n) else Failed(n))
  {
    PromptForSample(ui, n);
    saved := SaveSample(disk, record, n, m1);
    ui.EmitAll(if saved then Saved(n) else Failed(n));
  }

  /** The recording loop, from an existing samples directory `m1`. */
  method CollectAll(disk: Disk, ui: Channel, record: Recorder, ghost m1: map<Path, Kind>)
    returns (ok: bool)
    requires disk.Valid() && WellPlaced(disk.entries) && IsDir(m1, VoiceSamplesDir)
    requires disk.entries == m1
    modifies disk, ui
    ensures disk.Valid() && WellPlaced(disk.entries)
    ensures var k := FirstFailure(m1, record, 1);
      && ok == (k > NumSamplesRequired)
      && disk.entries == WithFiles(m1, Written(k))
      && ui.events == old(ui.events) + Rounds(k) + Ending(k)
  {
    ghost var k := FirstFailure(m1, record, 1);
    assert WithFiles(m1, Written(1)) == m1;
    var i := 0;
    while i < NumSamplesRequired
      invariant 0 <= i <= NumSamplesRequired
      invariant disk.Valid() && WellPlaced(disk.entries)
      invariant i < k
      invariant disk.entries == WithFiles(m1, Written(i + 1))
      invariant ui.events == old(ui.events) + Rounds(i + 1)
    {
      var saved := CollectSample(disk, ui, record, i + 1, m1);
      if !saved {
        assert k == i + 1;
        assert Ending(k) == Prompts(i + 1) + Failed(i + 1);
        Regroup2(old(ui.events) + Rounds(i + 1), Prompts(i + 1), Failed(i + 1));
        return false;
      }
      SavedBeforeFailure(m1, record, k, i + 1);
      assert disk.entries == WithFiles(m1, Written(i + 2));
      Regroup(old(ui.events), Rounds(i + 1), Prompts(i + 1), Saved(i + 1));
      i := i + 1;
    }
    assert k == i + 1 && Ending(k) == Collected();
    ui.EmitAll(Collected());
    ok := true;
  }

  /** `collect_voice_samples`: the welcome, the samples directory, then the
      five recordings. */
  method CollectVoiceSamples(disk: Disk, ui: Channel, record: Recorder) returns (ok: bool)
    requires disk.Valid() && WellPlaced(disk.entries)
    modifies disk, ui
    ensures disk.Valid() && WellPlaced(disk.entries)
    ensures var m1 := Ensured(old(disk.entries), VoiceSamplesDir);
      var k := FirstFailure(m1, record, 1);
      && IsDir(m1, VoiceSamplesDir)
      && ok == (k > NumSamplesRequired)
      && disk.entries == WithFiles(m1, Written(k))
      && ui.events == old(ui.events) + EnrollmentEvents(k)
  {
    ui.EmitAll(Intro());
    EnsureDir(disk, VoiceSamplesDir);
    ok := CollectAll(disk, ui, record, disk.entries);
    ghost var k := FirstFailure(Ensured(old(disk.entries), VoiceSamplesDir), record, 1);
    Regroup(old(ui.events), Intro(), Rounds(k), Ending(k));
  }

  /** A successful enrollment leaves `sample_1.wav` to `sample_5.wav` as
      regular files in the samples directory. */
  lemma SuccessLeavesFiveSamples(m1: map<Path, Kind>, record: Recorder)
    requires FirstFailure(m1, record, 1) > NumSamplesRequired
    ensures forall j :: 1 <= j <= NumSamplesRequired ==>
      var m := WithFiles(m1, Written(FirstFailure(m1, record, 1)));
      SamplePath(j) in m && m[SamplePath(j)] == File
  {
    forall j | 1 <= j <= NumSamplesRequired
      ensures SamplePath(j) in Written(NumSamplesRequired + 1)
    {
      WrittenHolds(NumSamplesRequired + 1, SamplePath(j));
    }
  }

  /** When sample `k` is the first not saved, no sample from `k` on is
      written: those paths are as they were before the loop. */
  lemma FailureStopsWriting(m1: map<Path, Kind>, record: Recorder, j: nat)
    requires FirstFailure(m1, record, 1) <= j
    ensures var m := WithFiles(m1, Written(FirstFailure(m1, record, 1)));
      (SamplePath(j) in m <==> SamplePath(j) in m1)
      && (SamplePath(j) in m1 ==> m[SamplePath(j)] == m1[SamplePath(j)])
  {
    var k := FirstFailure(m1, record, 1);
    WrittenHolds(k, SamplePath(j));
    if SamplePath(j) in Written(k) {
      var i :| 1 <= i < k && SamplePath(i) == SamplePath(j);
      assert SampleName(i) == SamplePath(i)[4];
      SampleNameInjective(i, j);
    }
  }
}
