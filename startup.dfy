/** main.py: the start-up gate. Jarvis opens only after the enrolled voice
    is recognised; without an enrolled voice the user is asked to enroll,
    and enrolling resets, records, trains and then verifies. */
module Startup {
  import opened Common
  import opened FileStore
  import opened Layout
  import opened Ui
  import VR = VoiceReset
  import VE = VoiceEnrollment
  import VT = VoiceTrainer
  import VV = VoiceVerification

  function AuthenticationPrompt(): seq<Event> {
    [Speak(Say(ReadyForAuthentication)), ShowInfo(Say(AuthenticatingInfo))]
  }

  /** main.py's own lines after `verify_voice` returns: the welcome and the
      opening of the interface, or the failure and either the enrollment
      prompt (no model on disk) or the invitation to retry. Nothing when
      `verify_voice` raised. */
  function AuthenticationLines(outcome: VV.VerifyOutcome, enrolled: bool): seq<Event> {
    match outcome
    case Escaped => []
    case Verified(true) =>
      [Speak(Say(Recognized)), ShowInfo(Say(AuthenticatedInfo)),
       Speak(Say(Welcome)), HideStart, PlaySound]
    case Verified(false) =>
      [Speak(Say(NotRecognized)), ShowError(Say(NotRecognizedError))] +
      if !enrolled then
        [Speak(Say(NoVoiceEnrolled)),
         ShowInfo(Say(NoVoiceEnrolledInfo)), AskForVoiceEnrollment]
      else
        [Speak(Say(TryAgain)), ShowInfo(Say(TryAgainInfo))]
  }

  /** Everything `attempt_voice_authentication` reports from store `m`. */
  ghost function AuthenticationEvents(m: map<Path, Kind>, locked: set<Path>, recorded: bool,
                                      c: VV.Classification): seq<Event> {
    AuthenticationPrompt() + VV.VerificationEvents(m, recorded, c)
      + AuthenticationLines(VV.VerifyResult(m, locked, recorded, c), PrimaryModelFile in m)
  }

  /** The branch on `verify_voice`'s answer. */
  method ReportVerdict(disk: Disk, ui: Channel, outcome: VV.VerifyOutcome)
    requires outcome.Verified?
    modifies ui
    ensures ui.events == old(ui.events) + AuthenticationLines(outcome, PrimaryModelFile in disk.entries)
  {
    if outcome.accepted {
      ui.Emit(Speak(Say(Recognized)));
      ui.Emit(ShowInfo(Say(AuthenticatedInfo)));
      ui.Emit(Speak(Say(Welcome)));
      ui.Emit(HideStart);
      ui.Emit(PlaySound);
    } else {
      ui.Emit(Speak(Say(NotRecognized)));
      ui.Emit(ShowError(Say(NotRecognizedError)));
      if !disk.Exists(PrimaryModelFile) {
        ui.Emit(Speak(Say(NoVoiceEnrolled)));
        ui.Emit(ShowInfo(Say(NoVoiceEnrolledInfo)));
        ui.Emit(AskForVoiceEnrollment);
      } else {
        ui.Emit(Speak(Say(TryAgain)));
        ui.Emit(ShowInfo(Say(TryAgainInfo)));
      }
    }
  }

  /** `attempt_voice_authentication`. Whether a voice is enrolled is read
      from the disk after verification, which never touches the models, so
      it is whether the primary model file was there before. */
  method AttemptVoiceAuthentication(disk: Disk, ui: Channel, recorded: bool, c: VV.Classification)
    requires disk.Valid() && WellPlaced(disk.entries)
    modifies disk, ui
    ensures disk.Valid() && WellPlaced(disk.entries)
    ensures disk.entries == VV.AfterVerification(old(disk.entries), disk.locked, recorded)
    ensures ui.events == old(ui.events) + AuthenticationEvents(old(disk.entries), disk.locked, recorded, c)
  {
    ghost var m := disk.entries;
    ui.EmitAll(AuthenticationPrompt());
    var outcome := VV.VerifyVoice(disk, ui, recorded, c);
    VV.VerificationKeepsModels(m, disk.locked, recorded, PrimaryModelFile);
    if outcome.Verified? {
      ReportVerdict(disk, ui, outcome);
    }
    Regroup(old(ui.events), AuthenticationPrompt(), VV.VerificationEvents(m, recorded, c),
      AuthenticationLines(outcome, PrimaryModelFile in m));
  }

  function NoVoiceLines(): seq<Event> {
    [Speak(Say(NoVoiceData)),
     ShowInfo(Say(NoVoiceDataInfo)), AskForVoiceEnrollment]
  }

  /** Everything `init_jarvis` reports from store `m`. */
  ghost function StartupEvents(m: map<Path, Kind>, locked: set<Path>, recorded: bool, c: VV.Classification): seq<Event> {
    if PrimaryModelFile !in m then [PlaySound] + NoVoiceLines()
    else [PlaySound] + AuthenticationEvents(m, locked, recorded, c)
  }

  /** The request to enroll when no voice model is on disk. */
  method AskToEnroll(ui: Channel)
    modifies ui
    ensures ui.events == old(ui.events) + NoVoiceLines()
  {
    ui.Emit(Speak(Say(NoVoiceData)));
    ui.Emit(ShowInfo(Say(NoVoiceDataInfo)));
    ui.Emit(AskForVoiceEnrollment);
  }

  /** `init_jarvis`: the assistant's sound, then either the request to
      enroll (no voice model on disk) or an authentication attempt. */
  method InitJarvis(disk: Disk, ui: Channel, recorded: bool, c: VV.Classification)
    requires disk.Valid() && WellPlaced(disk.entries)
    modifies disk, ui
    ensures disk.Valid() && WellPlaced(disk.entries)
    ensures disk.entries == VV.AfterVerification(old(disk.entries), disk.locked, recorded)
    ensures ui.events == old(ui.events) + StartupEvents(old(disk.entries), disk.locked, recorded, c)
  {
    if !disk.Exists(PrimaryModelFile) {
      ui.Emit(PlaySound);
      AskToEnroll(ui);
      Regroup2(old(ui.events), [PlaySound], NoVoiceLines());
    } else {
      ui.Emit(PlaySound);
      ghost var m := disk.entries;
      AttemptVoiceAuthentication(disk, ui, recorded, c);
      Regroup2(old(ui.events), [PlaySound], AuthenticationEvents(m, disk.locked, recorded, c));
    }
  }

  function Opening(): seq<Event> {
    [Speak(Say(EnrollmentStarting)), ShowInfo(Say(EnrollmentStartingInfo)),
     Speak(Say(OldDataCleared)),
     ShowInfo(Say(CollectingInfo))]
  }

  function CollectFailedLines(): seq<Event> {
    [Speak(Say(CollectFailed)),
     ShowError(Say(CollectFailedError)), AskForVoiceEnrollment]
  }

  function CollectedLines(): seq<Event> {
    [Speak(Say(SamplesReady)),
     ShowInfo(Say(TrainingInfo))]
  }

  function TrainFailedLines(): seq<Event> {
    [Speak(Say(TrainFailed)),
     ShowError(Say(TrainFailedError)), AskForVoiceEnrollment]
  }

  function TrainedLines(): seq<Event> {
    [Speak(Say(ModelReady)),
     ShowInfo(Say(EnrollmentCompleteInfo))]
  }

  function DeclinedLines(): seq<Event> {
    [Speak(Say(Declined)),
     ShowError(Say(DeclinedError))]
  }

  /** What training reports from store `m`, and what follows it. */
  ghost function TrainingEvents(m: map<Path, Kind>, locked: set<Path>, fit: VT.Fit, recorded: bool,
                                c: VV.Classification): seq<Event> {
    var report := VT.TrainingReport(m, locked, fit);
    if report == ModelTrained then
      VT.Start() + Report(report) + TrainedLines() + AuthenticationEvents(VT.Trained(m, fit), locked, recorded, c)
    else
      VT.Start() + Report(report) + TrainFailedLines()
  }

  /** `r` is a store training and what follows can leave, from store `m`.
      When a file of the previous model cannot be removed, the models
      directory is left partly emptied, as `StoppedPart` says. */
  ghost predicate TrainingLeaves(m: map<Path, Kind>, locked: set<Path>, fit: VT.Fit, recorded: bool,
                                 r: map<Path, Kind>) {
    if !VT.HasSamples(m) then r == m
    else if VT.CleanupBlocked(m, locked) then
      var m1 := Ensured(m, VoiceModelsDir);
      StoppedPart(m1, locked, VoiceModelsDir, VT.ModelNames(m1), r)
    else if VT.TrainingReport(m, locked, fit) == ModelTrained then
      r == VV.AfterVerification(VT.Trained(m, fit), locked, recorded)
    else r == VT.Trained(m, fit)
  }

  /** The training step of `handle_voice_enrollment_decision` and what follows it. */
  method TrainThenVerify(disk: Disk, ui: Channel, fit: VT.Fit, recorded: bool, c: VV.Classification)
    requires disk.Valid() && WellPlaced(disk.entries)
    modifies disk, ui
    ensures disk.Valid() && WellPlaced(disk.entries)
    ensures ui.events == old(ui.events) + TrainingEvents(old(disk.entries), disk.locked, fit, recorded, c)
    ensures TrainingLeaves(old(disk.entries), disk.locked, fit, recorded, disk.entries)
  {
    ghost var m := disk.entries;
    var trained := VT.TrainVoiceModel(disk, ui, fit);
    ghost var e1 := ui.events;
    ghost var report := VT.TrainingReport(m, disk.locked, fit);
    if trained {
      assert disk.entries == VT.Trained(m, fit);
      ui.Emit(Speak(Say(ModelReady)));
      ui.Emit(ShowInfo(Say(EnrollmentCompleteInfo)));
      assert ui.events == e1 + TrainedLines();
      AttemptVoiceAuthentication(disk, ui, recorded, c);
      Regroup4(old(ui.events), VT.Start(), Report(report), TrainedLines(),
        AuthenticationEvents(VT.Trained(m, fit), disk.locked, recorded, c));
    } else {
      ui.Emit(Speak(Say(TrainFailed)));
      ui.Emit(ShowError(Say(TrainFailedError)));
      ui.Emit(AskForVoiceEnrollment);
      assert ui.events == e1 + TrainFailedLines();
      Regroup(old(ui.events), VT.Start(), Report(report), TrainFailedLines());
    }
  }

  /** The first sample the enrollment fails to save (6: none), once the
      reset left store `reset`. */
  ghost function FirstMissing(reset: map<Path, Kind>, record: VE.Recorder): nat {
    VE.FirstFailure(Ensured(reset, VoiceSamplesDir), record, 1)
  }

  /** The store the recordings leave, once the reset left store `reset`. */
  ghost function CollectedStore(reset: map<Path, Kind>, record: VE.Recorder): map<Path, Kind> {
    WithFiles(Ensured(reset, VoiceSamplesDir), VE.Written(FirstMissing(reset, record)))
  }

  /** What the enrollment reports after its opening lines when sample `k`
      is the first not saved and the recordings left store `mc`: the
      recordings, then either the collection failure or the training and
      what follows it. */
  ghost function AfterRecording(k: nat, mc: map<Path, Kind>, locked: set<Path>, fit: VT.Fit,
                                recorded: bool, c: VV.Classification): seq<Event> {
    if k <= VE.NumSamplesRequired then VE.EnrollmentEvents(k) + CollectFailedLines()
    else VE.EnrollmentEvents(k) + CollectedLines() + TrainingEvents(mc, locked, fit, recorded, c)
  }

  /** What the enrollment reports after its opening lines, once the reset
      left store `reset`. */
  ghost function CollectionEvents(reset: map<Path, Kind>, locked: set<Path>, record: VE.Recorder, fit: VT.Fit,
                                  recorded: bool, c: VV.Classification): seq<Event> {
    AfterRecording(FirstMissing(reset, record), CollectedStore(reset, record), locked, fit, recorded, c)
  }

  /** `r` is a store the enrollment can leave, once the reset left store
      `reset`: the saved samples alone when too few were saved, and
      otherwise what training leaves from there. */
  ghost predicate CollectionLeaves(reset: map<Path, Kind>, locked: set<Path>, record: VE.Recorder, fit: VT.Fit,
                                   recorded: bool, r: map<Path, Kind>) {
    var m1 := Ensured(reset, VoiceSamplesDir);
    var k := VE.FirstFailure(m1, record, 1);
    if k <= VE.NumSamplesRequired then r == WithFiles(m1, VE.Written(k))
    else TrainingLeaves(WithFiles(m1, VE.Written(k)), locked, fit, recorded, r)
  }

  /** The branch on `collect_voice_samples`'s answer. */
  method AfterCollection(disk: Disk, ui: Channel, collected: bool, fit: VT.Fit, recorded: bool,
                         c: VV.Classification)
    requires disk.Valid() && WellPlaced(disk.entries)
    modifies disk, ui
    ensures disk.Valid() && WellPlaced(disk.entries)
    ensures !collected ==> disk.entries == old(disk.entries) && ui.events == old(ui.events) + CollectFailedLines()
    ensures collected ==>
      && ui.events == old(ui.events) + (CollectedLines() + TrainingEvents(old(disk.entries), disk.locked, fit, recorded, c))
      && TrainingLeaves(old(disk.entries), disk.locked, fit, recorded, disk.entries)
  {
    if collected {
      ui.EmitAll(CollectedLines());
      ghost var e1 := ui.events;
      TrainThenVerify(disk, ui, fit, recorded, c);
      Regroup2(old(ui.events), CollectedLines(), TrainingEvents(old(disk.entries), disk.locked, fit, recorded, c));
    } else {
      ui.EmitAll(CollectFailedLines());
    }
  }

  /** The collection step of `handle_voice_enrollment_decision` and what follows it. */
  method CollectThenTrain(disk: Disk, ui: Channel, record: VE.Recorder, fit: VT.Fit, recorded: bool,
                          c: VV.Classification)
    requires disk.Valid() && WellPlaced(disk.entries)
    modifies disk, ui
    ensures disk.Valid() && WellPlaced(disk.entries)
    ensures ui.events == old(ui.events) + CollectionEvents(old(disk.entries), disk.locked, record, fit, recorded, c)
    ensures CollectionLeaves(old(disk.entries), disk.locked, record, fit, recorded, disk.entries)
  {
    ghost var m1 := Ensured(disk.entries, VoiceSamplesDir);
    ghost var k := VE.FirstFailure(m1, record, 1);
    var collected := VE.CollectVoiceSamples(disk, ui, record);
    ghost var e1 := ui.events;
    ghost var m2 := disk.entries;
    assert k == FirstMissing(old(disk.entries), record) && m2 == CollectedStore(old(disk.entries), record);
    AfterCollection(disk, ui, collected, fit, recorded, c);
    RecordingThenRest(old(ui.events), k, m2, disk.locked, fit, recorded, c, ui.events);
  }

  lemma RecordingThenRest(before: seq<Event>, k: nat, mc: map<Path, Kind>, locked: set<Path>, fit: VT.Fit,
                          recorded: bool, c: VV.Classification, after: seq<Event>)
    requires k <= VE.NumSamplesRequired ==> after == before + VE.EnrollmentEvents(k) + CollectFailedLines()
    requires k > VE.NumSamplesRequired ==>
      after == before + VE.EnrollmentEvents(k) + (CollectedLines() + TrainingEvents(mc, locked, fit, recorded, c))
    ensures after == before + AfterRecording(k, mc, locked, fit, recorded, c)
  {
    if k > VE.NumSamplesRequired {
      Regroup(before, VE.EnrollmentEvents(k), CollectedLines(), TrainingEvents(mc, locked, fit, recorded, c));
    }
  }

  /** `handle_voice_enrollment_decision(consent)`. Declining only says so.
      Consenting resets the enrolled voice, then records, trains and
      verifies, each step only after the previous one succeeded; a failed
      step asks for enrollment again. The ghost result is the store the
      reset left. */
  method HandleVoiceEnrollmentDecision(disk: Disk, ui: Channel, consent: bool, record: VE.Recorder,
                                       fit: VT.Fit, recorded: bool, c: VV.Classification)
    returns (ghost reset: map<Path, Kind>)
    requires disk.Valid() && WellPlaced(disk.entries)
    modifies disk, ui
    ensures disk.Valid() && WellPlaced(disk.entries)
    ensures !consent ==> disk.entries == old(disk.entries) && ui.events == old(ui.events) + DeclinedLines()
    ensures consent ==>
      && VR.ResetLeaves(old(disk.entries), disk.locked, reset)
      && ui.events == old(ui.events) + Opening() + CollectionEvents(reset, disk.locked, record, fit, recorded, c)
      && CollectionLeaves(reset, disk.locked, record, fit, recorded, disk.entries)
  {
    reset := disk.entries;
    if consent {
      ui.Emit(Speak(Say(EnrollmentStarting)));
      ui.Emit(ShowInfo(Say(EnrollmentStartingInfo)));
      var _ := VR.DeleteExistingVoiceData(disk);
      reset := disk.entries;
      SubmapKeepsWellPlaced(old(disk.entries), reset);
      ui.Emit(Speak(Say(OldDataCleared)));
      ui.Emit(ShowInfo(Say(CollectingInfo)));
      assert ui.events == old(ui.events) + Opening();
      CollectThenTrain(disk, ui, record, fit, recorded, c);
    } else {
      ui.Emit(Speak(Say(Declined)));
      ui.Emit(ShowError(Say(DeclinedError)));
    }
  }

  /** What main.py itself says in an authentication attempt, leaving out what
      verification reports: the prompt, then its lines for the answer. */
  lemma AuthenticationOwnLines(m: map<Path, Kind>, locked: set<Path>, recorded: bool, c: VV.Classification)
    ensures Own(AuthenticationEvents(m, locked, recorded, c)) ==
      AuthenticationPrompt() + AuthenticationLines(VV.VerifyResult(m, locked, recorded, c), PrimaryModelFile in m)
  {
    var v := VV.VerificationEvents(m, recorded, c);
    var l := AuthenticationLines(VV.VerifyResult(m, locked, recorded, c), PrimaryModelFile in m);
    VV.VerificationQuiet(m, recorded, c);
    QuietOwn(v);
    OwnAppend(AuthenticationPrompt(), v);
    OwnAppend(AuthenticationPrompt() + v, l);
    OwnOfOwnLines(AuthenticationPrompt());
    OwnOfOwnLines(l);
  }

  /** main.py's answer to verification opens the interface exactly on
      acceptance, and asks for enrollment exactly on a rejection with no
      model on disk. */
  lemma AnswerSignals(outcome: VV.VerifyOutcome, enrolled: bool)
    ensures HideStart in AuthenticationLines(outcome, enrolled) <==> outcome == VV.Verified(true)
    ensures AskForVoiceEnrollment in AuthenticationLines(outcome, enrolled) <==>
      outcome == VV.Verified(false) && !enrolled
  {
  }

  /** An authentication attempt opens the interface exactly when the speaker
      is accepted, and asks for enrollment exactly when no model is on disk. */
  lemma AuthenticationGate(m: map<Path, Kind>, locked: set<Path>, recorded: bool, c: VV.Classification)
    ensures HideStart in AuthenticationEvents(m, locked, recorded, c) <==>
      VV.VerifyResult(m, locked, recorded, c) == VV.Verified(true)
    ensures AskForVoiceEnrollment in AuthenticationEvents(m, locked, recorded, c) <==> PrimaryModelFile !in m
  {
    var v := VV.VerificationEvents(m, recorded, c);
    var o := VV.VerifyResult(m, locked, recorded, c);
    VV.VerificationQuiet(m, recorded, c);
    QuietLacks(v, HideStart);
    QuietLacks(v, AskForVoiceEnrollment);
    AnswerSignals(o, PrimaryModelFile in m);
  }

  /** At start-up the interface opens exactly when a model is on disk and the
      speaker is accepted; enrollment is asked for exactly when no model is
      on disk. */
  lemma InitGate(m: map<Path, Kind>, locked: set<Path>, recorded: bool, c: VV.Classification)
    ensures HideStart in StartupEvents(m, locked, recorded, c) <==>
      PrimaryModelFile in m && VV.VerifyResult(m, locked, recorded, c) == VV.Verified(true)
    ensures AskForVoiceEnrollment in StartupEvents(m, locked, recorded, c) <==> PrimaryModelFile !in m
  {
    AuthenticationGate(m, locked, recorded, c);
  }

  /** After the samples are collected, the interface opens exactly when
      training succeeds and the trained model accepts the speaker; enrollment
      is asked for again exactly when training does not succeed or leaves no
      primary model file. */
  lemma TrainingGate(m: map<Path, Kind>, locked: set<Path>, fit: VT.Fit, recorded: bool, c: VV.Classification)
    ensures HideStart in TrainingEvents(m, locked, fit, recorded, c) <==>
      VT.TrainingReport(m, locked, fit) == ModelTrained
      && VV.VerifyResult(VT.Trained(m, fit), locked, recorded, c) == VV.Verified(true)
    ensures AskForVoiceEnrollment in TrainingEvents(m, locked, fit, recorded, c) <==>
      VT.TrainingReport(m, locked, fit) != ModelTrained || PrimaryModelFile !in VT.Trained(m, fit)
  {
    var report := VT.TrainingReport(m, locked, fit);
    var head := VT.Start() + Report(report);
    assert Quiet(head);
    QuietLacks(head, HideStart);
    QuietLacks(head, AskForVoiceEnrollment);
    if report == ModelTrained {
      AuthenticationGate(VT.Trained(m, fit), locked, recorded, c);
    }
  }

  /** An enrollment opens the interface exactly when all five samples are
      saved, training reports success and the trained model accepts the
      speaker; it ends by asking for enrollment again exactly when a sample
      is not saved, training does not succeed, or the trained model lacks
      the file verification looks for. */
  lemma EnrollmentGate(k: nat, mc: map<Path, Kind>, locked: set<Path>, fit: VT.Fit,
                       recorded: bool, c: VV.Classification)
    ensures var es := Opening() + AfterRecording(k, mc, locked, fit, recorded, c);
      && (HideStart in es <==>
            && k > VE.NumSamplesRequired
            && VT.TrainingReport(mc, locked, fit) == ModelTrained
            && VV.VerifyResult(VT.Trained(mc, fit), locked, recorded, c) == VV.Verified(true))
      && (AskForVoiceEnrollment in es <==>
            || k <= VE.NumSamplesRequired
            || VT.TrainingReport(mc, locked, fit) != ModelTrained
            || PrimaryModelFile !in VT.Trained(mc, fit))
  {
    if k > VE.NumSamplesRequired {
      CollectedGate(k, mc, locked, fit, recorded, c);
    } else {
      CollectFailedGate(k, mc, locked, fit, recorded, c);
    }
  }

  /** `EnrollmentGate` once all five samples are saved. */
  lemma CollectedGate(k: nat, mc: map<Path, Kind>, locked: set<Path>, fit: VT.Fit,
                      recorded: bool, c: VV.Classification)
    requires k > VE.NumSamplesRequired
    ensures var es := Opening() + AfterRecording(k, mc, locked, fit, recorded, c);
      && (HideStart in es <==>
            && VT.TrainingReport(mc, locked, fit) == ModelTrained
            && VV.VerifyResult(VT.Trained(mc, fit), locked, recorded, c) == VV.Verified(true))
      && (AskForVoiceEnrollment in es <==>
            || VT.TrainingReport(mc, locked, fit) != ModelTrained
            || PrimaryModelFile !in VT.Trained(mc, fit))
  {
    var ee := VE.EnrollmentEvents(k);
    VE.EnrollmentQuiet(k);
    var t := TrainingEvents(mc, locked, fit, recorded, c);
    var head := Opening() + ee + CollectedLines();
    Regroup(Opening(), ee, CollectedLines(), t);
    assert Opening() + AfterRecording(k, mc, locked, fit, recorded, c) == head + t;
    QuietLacks(ee, HideStart);
    QuietLacks(ee, AskForVoiceEnrollment);
    assert HideStart !in Opening() && AskForVoiceEnrollment !in Opening();
    assert HideStart !in CollectedLines() && AskForVoiceEnrollment !in CollectedLines();
    SignalAfter(Opening(), ee, HideStart);
    SignalAfter(Opening(), ee, AskForVoiceEnrollment);
    SignalAfter(Opening() + ee, CollectedLines(), HideStart);
    SignalAfter(Opening() + ee, CollectedLines(), AskForVoiceEnrollment);
    SignalAfter(head, t, HideStart);
    SignalAfter(head, t, AskForVoiceEnrollment);
    TrainingGate(mc, locked, fit, recorded, c);
  }

  /** `EnrollmentGate` once a sample is not saved. */
  lemma CollectFailedGate(k: nat, mc: map<Path, Kind>, locked: set<Path>, fit: VT.Fit,
                          recorded: bool, c: VV.Classification)
    requires k <= VE.NumSamplesRequired
    ensures var es := Opening() + AfterRecording(k, mc, locked, fit, recorded, c);
      HideStart !in es && AskForVoiceEnrollment in es
  {
    var ee := VE.EnrollmentEvents(k);
    VE.EnrollmentQuiet(k);
    QuietLacks(ee, HideStart);
    var es := Opening() + AfterRecording(k, mc, locked, fit, recorded, c);
    Regroup2(Opening(), ee, CollectFailedLines());
    assert es[|es| - 1] == AskForVoiceEnrollment;
  }

  /** A training that succeeds without writing the `.svm_classifier_MEANS`
      file leaves verification nothing to load: the enrollment ends by asking
      for enrollment again and the interface stays closed. */
  lemma TrainedWithoutPrimaryAsksAgain(k: nat, mc: map<Path, Kind>, locked: set<Path>, suffixes: seq<string>,
                                       recorded: bool, c: VV.Classification)
    requires k > VE.NumSamplesRequired
    requires VT.HasSamples(mc) && !VT.CleanupBlocked(mc, locked)
    requires |suffixes| > 0 && ".svm_classifier_MEANS" !in suffixes
    ensures var es := Opening() + AfterRecording(k, mc, locked, VT.FitWrites(suffixes), recorded, c);
      AskForVoiceEnrollment in es && HideStart !in es
  {
    EnrollmentGate(k, mc, locked, VT.FitWrites(suffixes), recorded, c);
    VT.TrainedPrimaryModel(mc, suffixes);
  }
}
