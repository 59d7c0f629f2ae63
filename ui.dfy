/** What the user sees and hears: spoken lines, the messages shown in the
    browser front end, and the front end's control signals, kept as one
    log in the order they happen. */
module Ui {

  /** The progress and error messages the voice collaborators report. Their
      wording carries run-time values (a sample number, an exception text, a
      confidence), so each is a constructor with the values it names. */
  datatype Progress =
    | EnrollmentIntro(passphrase: string, total: nat)
    | EnrollmentWelcome(passphrase: string)
    | SamplePrompt(sample: nat, total: nat, passphrase: string)
    | Countdown(second: nat)
    | RecordingNow(ellipsis: bool)
    | SampleSaved(sample: nat)
    | SampleFailed(sample: nat)
    | SamplesCollected(total: nat)
    | TrainingStart(spoken: bool)
    | SamplesMissing
    | ModelTrained
    | NoModelFile
    | TrainingFailed
    | VerificationIntro(passphrase: string, spoken: bool)
    | ModelMissing
    | RecordingFailed
    | Verifying(spoken: bool)
    | VoiceAccepted(speaker: string, confidence: real)
    | VoiceRejected(speaker: string, confidence: real)
    | VerificationFailed

  /** main.py's own sentences. */
  datatype Sentence =
    | EnrollmentStarting
    | EnrollmentStartingInfo
    | OldDataCleared
    | CollectingInfo
    | SamplesReady
    | TrainingInfo
    | ModelReady
    | EnrollmentCompleteInfo
    | TrainFailed
    | TrainFailedError
    | CollectFailed
    | CollectFailedError
    | Declined
    | DeclinedError
    | ReadyForAuthentication
    | AuthenticatingInfo
    | Recognized
    | AuthenticatedInfo
    | Welcome
    | NotRecognized
    | NotRecognizedError
    | NoVoiceEnrolled
    | NoVoiceEnrolledInfo
    | TryAgain
    | TryAgainInfo
    | NoVoiceData
    | NoVoiceDataInfo

  /** The exact wording of each sentence. */
  function Wording(s: Sentence): string {
    match s
    case EnrollmentStarting => "Starting new voice enrollment process."
    case EnrollmentStartingInfo => "Enrollment: Starting..."
    case OldDataCleared => "Old voice data cleared. Starting sample collection."
    case CollectingInfo => "Enrollment: Collecting voice samples..."
    case SamplesReady => "Voice samples collected. Now training the voice model."
    case TrainingInfo => "Enrollment: Training voice model..."
    case ModelReady => "Voice model trained. Proceeding with voice verification."
    case EnrollmentCompleteInfo => "Enrollment: Complete! Verifying voice..."
    case TrainFailed => "Failed to train voice model. Please try enrollment again."
    case TrainFailedError => "Enrollment Error: Could not train model."
    case CollectFailed => "Failed to collect voice samples. Please ensure microphone is working."
    case CollectFailedError => "Enrollment Error: Could not collect samples."
    case Declined => "Voice enrollment declined. Jarvis cannot start without authentication."
    case DeclinedError => "Enrollment Declined: Jarvis cannot start."
    case ReadyForAuthentication => "Ready for Voice Authentication."
    case AuthenticatingInfo => "Authenticating: Please wait..."
    case Recognized => "Voice recognized successfully."
    case AuthenticatedInfo => "Authentication Successful!"
    case Welcome => "Welcome to Your Assistant."
    case NotRecognized => "Voice not recognized."
    case NotRecognizedError => "Authentication Failed: Voice not recognized."
    case NoVoiceEnrolled => "No recognized voice is enrolled. Please enroll your voice."
    case NoVoiceEnrolledInfo => "Info: No voice enrolled. Please enroll."
    case TryAgain => "Please try voice authentication again."
    case TryAgainInfo => "Retry voice authentication or restart."
    case NoVoiceData => "No voice data found. Enrollment is required to use Jarvis."
    case NoVoiceDataInfo => "Welcome! No voice data found. Enrollment is required."
  }

  /** A line is either one of main.py's own fixed sentences or a
      collaborator's progress message. */
  datatype Line = Say(s: Sentence) | Note(p: Progress)

  datatype Event =
    | Speak(line: Line)
    | ShowInfo(line: Line)
    | ShowError(line: Line)
    | AskForVoiceEnrollment
    | HideStart
    | PlaySound

  function Countdowns(): seq<Event> {
    [ShowInfo(Note(Countdown(3))), ShowInfo(Note(Countdown(2))), ShowInfo(Note(Countdown(1)))]
  }

  /** A progress message shown in the front end and then spoken. */
  function Report(p: Progress): seq<Event> {
    [ShowInfo(Note(p)), Speak(Note(p))]
  }

  /** A collaborator's progress report. */
  predicate IsNote(e: Event) {
    (e.Speak? || e.ShowInfo? || e.ShowError?) && e.line.Note?
  }

  /** Every event is a collaborator's progress report: no gate signal, no
      enrollment prompt and no line of main.py's own. */
  predicate Quiet(es: seq<Event>) {
    forall i :: 0 <= i < |es| ==> IsNote(es[i])
  }

  /** The events that are not collaborators' progress reports, in order. */
  function Own(es: seq<Event>): (r: seq<Event>)
    ensures |r| <= |es|
    ensures forall i :: 0 <= i < |r| ==> !IsNote(r[i]) && r[i] in es
  {
    if |es| == 0 then []
    else (if IsNote(es[0]) then [] else [es[0]]) + Own(es[1..])
  }

  lemma {:induction false} OwnAppend(a: seq<Event>, b: seq<Event>)
    ensures Own(a + b) == Own(a) + Own(b)
  {
    if |a| == 0 {
      assert a + b == b;
    } else {
      assert (a + b)[1..] == a[1..] + b;
      OwnAppend(a[1..], b);
    }
  }

  lemma {:induction false} QuietOwn(es: seq<Event>)
    requires Quiet(es)
    ensures Own(es) == []
  {
    if |es| > 0 {
      QuietOwn(es[1..]);
    }
  }

  lemma {:induction false} OwnOfOwnLines(es: seq<Event>)
    requires forall i :: 0 <= i < |es| ==> !IsNote(es[i])
    ensures Own(es) == es
  {
    if |es| > 0 {
      OwnOfOwnLines(es[1..]);
    }
  }

  /** A front-end signal or one of main.py's own lines occurs in a log
      exactly when it occurs among the log's own events. */
  lemma {:induction false} OwnKeepsSignals(es: seq<Event>, e: Event)
    requires !IsNote(e)
    ensures e in es <==> e in Own(es)
  {
    if |es| > 0 {
      OwnKeepsSignals(es[1..], e);
      assert es == [es[0]] + es[1..];
    }
  }

  /** A log of progress reports holds no event of main.py's own. */
  lemma QuietLacks(es: seq<Event>, e: Event)
    requires Quiet(es) && !IsNote(e)
    ensures e !in es
  {
  }

  /** An event missing from a prefix is in the log exactly when it is in the rest. */
  lemma SignalAfter(head: seq<Event>, rest: seq<Event>, e: Event)
    requires e !in head
    ensures e in head + rest <==> e in rest
  {
  }

  lemma Regroup2<T>(o: seq<T>, a: seq<T>, b: seq<T>)
    ensures o + a + b == o + (a + b)
  {
  }

  lemma Regroup<T>(o: seq<T>, a: seq<T>, b: seq<T>, c: seq<T>)
    ensures o + a + b + c == o + (a + b + c)
  {
  }

  lemma Regroup4<T>(o: seq<T>, a: seq<T>, b: seq<T>, c: seq<T>, d: seq<T>)
    ensures o + a + b + c + d == o + (a + b + c + d)
  {
  }

  lemma QuietAppend(a: seq<Event>, b: seq<Event>)
    requires Quiet(a) && Quiet(b)
    ensures Quiet(a + b)
  {
  }

  /** The log the Python code writes to through `speak` and the `eel` bridge. */
  class Channel {
    var events: seq<Event>

    constructor ()
      ensures events == []
    {
      events := [];
    }

    method Emit(e: Event)
      modifies this
      ensures events == old(events) + [e]
    {
      events := events + [e];
    }

    /** Several events, in order. */
    method EmitAll(es: seq<Event>)
      modifies this
      ensures events == old(events) + es
    {
      events := events + es;
    }

    /** The "Recording in 3...", "2...", "1..." countdown shown before a recording. */
    method CountDown()
      modifies this
      ensures events == old(events) + Countdowns()
    {
      var j := 3;
      while j > 0
        invariant 0 <= j <= 3
        invariant events == old(events) + Countdowns()[..3 - j]
      {
        Emit(ShowInfo(Note(Countdown(j))));
        j := j - 1;
      }
    }
  }
}
