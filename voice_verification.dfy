/** `verify_voice`: records the passphrase once and asks the trained model
    whether the enrolled speaker said it, with enough confidence. */
module VoiceVerification {
  import opened Common
  import opened FileStore
  import opened Layout
  import opened Ui

  const ExpectedSpeaker: string := "user_1"
  const Threshold: real := 0.7
  const Passphrase: string := "Hello Jarvis activate"

  /** What `file_classification` does with the recording: it raises, or it
      returns the winning class's index, a probability per class and the
      class names. */
  datatype Classification =
    | ClassifyRaises
    | Classified(winner: int, probabilities: seq<real>, classNames: seq<string>)

  /** How a call ends. `Escaped` is an exception that leaves the function:
      the `shutil.rmtree` on the recording-failure path is outside any
      handler. */
  datatype VerifyOutcome = Verified(accepted: bool) | Escaped

  /** Python's `s[i]`: a negative index counts from the end, and one out of
      range raises. */
  function PyIndex<T>(s: seq<T>, i: int): Option<T> {
    if 0 <= i < |s| then Some(s[i])
    else if -|s| <= i < 0 then Some(s[|s| + i])
    else None
  }

  /** A negative index names the same element as its non-negative twin. */
  lemma PyIndexWraps<T>(s: seq<T>, i: int)
    requires 0 <= i < |s|
    ensures PyIndex(s, i - |s|) == PyIndex(s, i)
  {
  }

  predicate Accepts(speaker: string, confidence: real) {
    speaker == ExpectedSpeaker && confidence >= Threshold
  }

  /** The message the classification ends with. */
  function Verdict(c: Classification): (p: Progress)
    ensures p.VoiceAccepted? || p.VoiceRejected? || p == VerificationFailed
    ensures p.VoiceAccepted? <==>
      && c.Classified?
      && PyIndex(c.classNames, c.winner).Some?
      && PyIndex(c.probabilities, c.winner).Some?
      && Accepts(PyIndex(c.classNames, c.winner).value, PyIndex(c.probabilities, c.winner).value)
  {
    match c
    case ClassifyRaises => VerificationFailed
    case Classified(winner, probabilities, classNames) =>
      match (PyIndex(classNames, winner), PyIndex(probabilities, winner))
      case (Some(speaker), Some(confidence)) =>
        if Accepts(speaker, confidence) then VoiceAccepted(speaker, confidence)
        else VoiceRejected(speaker, confidence)
      case _ => VerificationFailed
  }

  /** Acceptance only improves with confidence. */
  lemma AcceptsMonotone(speaker: string, c1: real, c2: real)
    requires Accepts(speaker, c1) && c1 <= c2
    ensures Accepts(speaker, c2)
  {
  }

  function Intro(): seq<Event> {
    [ShowInfo(Note(VerificationIntro(Passphrase, false))), Speak(Note(VerificationIntro(Passphrase, true)))]
  }

  /** The countdown and the "Recording now" lines. */
  function Recording(): seq<Event> {
    Countdowns() + [ShowInfo(Note(RecordingNow(true))), Speak(Note(RecordingNow(false)))]
  }

  function Checking(): seq<Event> {
    [ShowInfo(Note(Verifying(false))), Speak(Note(Verifying(true)))]
  }

  /** The store once the temporary directory is there. */
  ghost function Prepared(m: map<Path, Kind>): map<Path, Kind> {
    Ensured(m, VerificationTempDir)
  }

  /** The microphone worked and the recording was written. */
  ghost predicate Recorded(m: map<Path, Kind>, recorded: bool) {
    recorded && CanWrite(Prepared(m), VerificationSample)
  }

  /** The store the final clean-up starts from. */
  ghost function BeforeCleanup(m: map<Path, Kind>, recorded: bool): map<Path, Kind> {
    if Recorded(m, recorded) then Prepared(m)[VerificationSample := File] else Prepared(m)
  }

  ghost predicate CleanupBlocked(m: map<Path, Kind>, locked: set<Path>, recorded: bool) {
    TreeBlocked(BeforeCleanup(m, recorded), locked, VerificationTempDir)
  }

  /** The store a call leaves behind. */
  ghost function AfterVerification(m: map<Path, Kind>, locked: set<Path>, recorded: bool): map<Path, Kind> {
    if PrimaryModelFile !in m then m
    else if CleanupBlocked(m, locked, recorded) then BeforeCleanup(m, recorded)
    else WithoutTree(BeforeCleanup(m, recorded), VerificationTempDir)
  }

  /** How a call ends. */
  ghost function VerifyResult(m: map<Path, Kind>, locked: set<Path>, recorded: bool, c: Classification): VerifyOutcome {
    if PrimaryModelFile !in m then Verified(false)
    else if !Recorded(m, recorded) then
      (if CleanupBlocked(m, locked, recorded) then Escaped else Verified(false))
    else Verified(Verdict(c).VoiceAccepted?)
  }

  /** What a call reports. */
  ghost function VerificationEvents(m: map<Path, Kind>, recorded: bool, c: Classification): seq<Event> {
    if PrimaryModelFile !in m then Intro() + Report(ModelMissing)
    else if !Recorded(m, recorded) then Intro() + Recording() + Report(RecordingFailed)
    else Intro() + Recording() + Checking() + Report(Verdict(c))
  }

  /** `sounddevice.rec` and `wav.write` of the recording: the microphone
      can fail, and so can the write. */
  method RecordSample(disk: Disk, recorded: bool) returns (ok: bool)
    requires disk.Valid() && WellPlaced(disk.entries)
    modifies disk
    ensures disk.Valid() && WellPlaced(disk.entries)
    ensures ok == (recorded && CanWrite(old(disk.entries), VerificationSample))
    ensures disk.entries == if ok then old(disk.entries)[VerificationSample := File] else old(disk.entries)
  {
    ok := false;
    if recorded {
      VerificationSampleClear();
      WriteKeepsWellPlaced(disk.entries, VerificationSample);
      ok := disk.WriteFile(VerificationSample);
    }
  }

  /** `if os.path.exists(VERIFICATION_TEMP_DIR): shutil.rmtree(...)`;
      false when the removal raises. */
  method RemoveTempDir(disk: Disk) returns (ok: bool)
    requires disk.Valid() && WellPlaced(disk.entries)
    modifies disk
    ensures disk.Valid() && WellPlaced(disk.entries)
    ensures var m := old(disk.entries);
      && ok == (VerificationTempDir !in m || !TreeBlocked(m, disk.locked, VerificationTempDir))
      && disk.entries == if VerificationTempDir in m && ok then WithoutTree(m, VerificationTempDir) else m
  {
    ok := true;
    if disk.Exists(VerificationTempDir) {
      ghost var m := disk.entries;
      assert DirsOrAbsent(m, VerificationTempDir);
      assert VerificationTempDir[..|VerificationTempDir|] == VerificationTempDir;
      ok := disk.RemoveTree(VerificationTempDir);
      SubmapKeepsWellPlaced(m, disk.entries);
    }
  }

  /** Everything after the temporary directory is made: the recording,
      then either its failure or the classification, then the clean-up. */
  method RecordAndClassify(disk: Disk, ui: Channel, recorded: bool, c: Classification,
                           ghost m: map<Path, Kind>)
    returns (outcome: VerifyOutcome)
    requires PrimaryModelFile in m && disk.entries == Prepared(m)
    requires disk.Valid() && WellPlaced(disk.entries) && IsDir(disk.entries, VerificationTempDir)
    modifies disk, ui
    ensures disk.Valid() && WellPlaced(disk.entries)
    ensures outcome == VerifyResult(m, disk.locked, recorded, c)
    ensures disk.entries == AfterVerification(m, disk.locked, recorded)
    ensures ui.events == old(ui.events) + Recording() +
      if Recorded(m, recorded) then Checking() + Report(Verdict(c)) else Report(RecordingFailed)
  {
    ghost var e0 := ui.events;
    ui.CountDown();
    ui.Emit(ShowInfo(Note(RecordingNow(true))));
    ui.Emit(Speak(Note(RecordingNow(false))));
    assert ui.events == e0 + Recording();
    var saved := RecordSample(disk, recorded);
    if !saved {
      ui.EmitAll(Report(RecordingFailed));
      var removed := RemoveTempDir(disk);
      if !removed {
        return Escaped;
      }
      return Verified(false);
    }
    ui.EmitAll(Checking() + Report(Verdict(c)));
    var verdict := Verdict(c);
    var removed := RemoveTempDir(disk);
    outcome := Verified(verdict.VoiceAccepted?);
  }

  /** `verify_voice`. Without the primary model file nothing is recorded.
      A failed recording is reported and the temporary directory removed,
      outside any handler. Otherwise the classification decides, any
      exception in it is reported, and the temporary directory is removed
      with its failure ignored. */
  method VerifyVoice(disk: Disk, ui: Channel, recorded: bool, c: Classification)
    returns (outcome: VerifyOutcome)
    requires disk.Valid() && WellPlaced(disk.entries)
    modifies disk, ui
    ensures disk.Valid() && WellPlaced(disk.entries)
    ensures outcome == VerifyResult(old(disk.entries), disk.locked, recorded, c)
    ensures disk.entries == AfterVerification(old(disk.entries), disk.locked, recorded)
    ensures ui.events == old(ui.events) + VerificationEvents(old(disk.entries), recorded, c)
  {
    ghost var e0 := ui.events;
    ui.EmitAll(Intro());
    if !disk.Exists(PrimaryModelFile) {
      ui.EmitAll(Report(ModelMissing));
      Regroup2(e0, Intro(), Report(ModelMissing));
      return Verified(false);
    }
    ghost var m := disk.entries;
    EnsureDir(disk, VerificationTempDir);
    outcome := RecordAndClassify(disk, ui, recorded, c, m);
    if Recorded(m, recorded) {
      Regroup2(e0 + Intro() + Recording(), Checking(), Report(Verdict(c)));
      Regroup4(e0, Intro(), Recording(), Checking(), Report(Verdict(c)));
    } else {
      Regroup(e0, Intro(), Recording(), Report(RecordingFailed));
    }
  }

  /** Verification never touches the trained model. */
  lemma VerificationKeepsModels(m: map<Path, Kind>, locked: set<Path>, recorded: bool, p: Path)
    requires VoiceModelsDir <= p
    ensures p in AfterVerification(m, locked, recorded) <==> p in m
    ensures p in m ==> AfterVerification(m, locked, recorded)[p] == m[p]
  {
    assert p[2] == "models";
  }

  /** A call that gets past the model check and whose clean-up succeeds
      leaves neither the recording nor its directory behind. */
  lemma NoRecordingLeft(m: map<Path, Kind>, locked: set<Path>, recorded: bool)
    requires PrimaryModelFile in m && !CleanupBlocked(m, locked, recorded)
    ensures VerificationTempDir !in AfterVerification(m, locked, recorded)
    ensures VerificationSample !in AfterVerification(m, locked, recorded)
  {
  }

  /** Verification only reports progress: it never signals the front end. */
  lemma VerificationQuiet(m: map<Path, Kind>, recorded: bool, c: Classification)
    ensures Quiet(VerificationEvents(m, recorded, c))
  {
  }
}
