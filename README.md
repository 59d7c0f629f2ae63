# Jarvis start-up gate and command rules, in Dafny

Jarvis is a desktop voice assistant. It opens its interface only after it
recognises the enrolled voice. Without an enrolled voice it asks the user to
enroll, and enrolling works in four steps:

- reset the old voice data;
- record five samples of a passphrase;
- train a speaker model;
- verify the voice once.

Beside the voice pipeline, the back end:

- collects and trains face samples;
- dispatches typed or spoken commands to handlers (open an application,
  WhatsApp, YouTube, time, weather, chat);
- normalises contact phone numbers and builds WhatsApp URLs;
- keeps a bounded chat history;
- reads API keys from the environment or from a JSON config file.

This project models that core. It proves properties of the model with Dafny.

Modules, one per source file, plus shared bases:

- `Common`: the Python string operations the source relies on. These are
  `in`, `str.split(sep, 1)[-1]`, `strip`, `lower`, `split('.')`, `isdigit`,
  `int` and `replace`.
- `FileStore`: the file system as a map from path to `File`/`Dir`, held by
  the class `Disk`. Its methods cover `exists`, `isdir`, `listdir`,
  `os.remove`, `shutil.rmtree`, a listing loop of removals, `makedirs` and a
  file write. `locked` is the set of paths whose removal raises.
- `Layout`: the directories and files the program uses. It also holds the
  invariant `WellPlaced`: each of those directories is a directory whenever
  it is present.
- `Ui`: the event log of what the user hears and sees. The log records
  `speak`, the front end's `showInfo`/`showError`, and its
  `askForVoiceEnrollment`/`hideStart` signals. `main.py`'s own sentences are
  kept apart from the collaborators' progress lines.
- `VoiceReset`, `VoiceEnrollment`, `VoiceTrainer`, `VoiceVerification`:
  `backend/voice_auth/*`.
- `Startup`: `main.py`.
- `FaceReset`, `FaceSample`, `FaceTrainer`: `backend/auth/*`.
- `ApiService`, `LlmService`: the API-key lookups.
- `Feature`: `openCommand`, `findContact`, `whatsApp`, `chatBot` and
  `PlayYoutube`. Effects are returned as a list of `Effect` values.
- `UrlQuote`: UTF-8 and percent-encoding of a URL query field, as
  `urllib.parse.quote` does it, and how an application reads the field back.
- `Command`: `handle_whatsapp_request`, the weather fallback, the
  conversation log and `takeAllCommands`. The class `Assistant` holds the
  global `conversation_log` and the effect trace.

Hardware and foreign libraries are parameters:

- The microphone is a `Recorder` (sample number to success).
- The camera is a sequence of per-frame face counts.
- The keyboard that `pyautogui` drives is `World.keysFail`: the key press at
  which it raises, if any.
- The face detector is a function from image name to region count.
- The voice classifier's answer is a `Classification`.
- The model fit is a `Fit`: the suffixes of the files it writes, and whether it
  then raises.
- The chat completion is a function from message list to `Reply`: the
  content, or the kind of exception it raises.
- The database tables, `remove_words`, `extract_yt_term` and
  `ASSISTANT_NAME` are fields of `Feature.World`.

## Model

| member | source | states |
|---|---|---|
| Startup.HandleVoiceEnrollmentDecision | main.py:16-40 | Declining changes no file and reports only the two declining lines, with no re-enrollment prompt. Consenting first resets the voice data, leaving a store `reset` that satisfies `VoiceReset.ResetLeaves`. It then collects, trains and verifies. The event log is exactly the opening lines followed by `CollectionEvents(reset, …)`. The final store is one `CollectionLeaves` allows. With fewer than five samples saved, that is the saved samples. After a full cleanup, it is the trained store, and the verified store when training succeeds. When a `user_1_voice_model*` entry holds a locked path, it is the partial cleanup of `FileStore.StoppedPart`. |
| Startup.CollectThenTrain | main.py:21-37 | After the reset, the samples collected decide the outcome. A collection that stops at sample k ≤ 5 ends with the failure lines and the re-enrollment prompt. Training is never reached on that path. |
| Startup.AfterCollection | main.py:23-37 | A failed collection leaves the store untouched and appends the failure lines, which end in `AskForVoiceEnrollment`. A successful one continues with training. |
| Startup.TrainThenVerify | main.py:26-33 | Verification follows only a training that reports `ModelTrained`. Otherwise the training-failure lines and the re-enrollment prompt follow. |
| Startup.AttemptVoiceAuthentication | main.py:42-61 | The store is what `verify_voice` leaves. The log is the prompt, then `verify_voice`'s report, then main.py's verdict lines. |
| Startup.ReportVerdict | main.py:46-61 | Acceptance speaks the welcome and emits `HideStart` and the sound. Rejection asks to enroll iff the primary model file is absent, and otherwise invites a retry. |
| Startup.InitJarvis | main.py:66-74 | With no primary model file, the call plays the sound and asks to enroll, with no verification and no change to the store. Otherwise it plays the sound and authenticates. |
| Startup.AskToEnroll | main.py:67-71 | The no-voice branch emits exactly its spoken line, its info line and the enrollment prompt. |
| Startup.AuthenticationOwnLines | main.py:42-61 | Removing the collaborators' progress lines from the authentication log leaves exactly main.py's prompt and verdict lines. |
| Startup.AnswerSignals | main.py:46-61 | `HideStart` is among the verdict lines iff `verify_voice` answered true. `AskForVoiceEnrollment` is among them iff it answered false and no model is enrolled. |
| Startup.AuthenticationGate | main.py:42-61 | The interface opens (`HideStart`) iff verification accepted the voice. Re-enrollment is requested iff the primary model file is absent. |
| Startup.InitGate | main.py:66-74 | At cold start, `HideStart` happens iff a model is present and the voice is accepted. Enrollment is requested iff no model is present. |
| Startup.TrainingGate | main.py:26-33 | After collection, the interface opens iff training reports `ModelTrained` and the trained store's verification accepts. Re-enrollment is requested iff training failed or produced no primary model file. |
| Startup.EnrollmentGate | main.py:16-37 | Over the whole enrollment, `HideStart` needs all five samples, a trained model and an accepting verification. Re-enrollment is requested iff collection failed, training failed, or no primary model file was produced. |
| Startup.TrainedWithoutPrimaryAsksAgain | main.py:26-29 | A training that writes model files but not `.svm_classifier_MEANS` counts as a success for `train_voice_model`. Verification then finds no model, so the user is asked to enroll again and the interface stays closed. |
| FileStore.Disk.RemoveEach | backend/voice_auth/utils.py:20-38 | Removing the given children in order, the result is true iff no child's subtree holds a locked path, and then all of them are gone. Otherwise the loop stops at the first child k whose subtree holds a locked path. Children 0..k-1 are gone and none of them held a locked path. Child k and the rest stay with everything else. |
| VoiceReset.DeleteExistingVoiceData | backend/voice_auth/utils.py:8-46 | The result is true iff the samples tree was removed or the models directory was emptied. The store is what `ResetLeaves` allows. The samples tree is gone when its removal succeeds. The models directory is emptied when nothing below it is locked. Otherwise the entries listed before the first one holding a locked path are gone, and that entry and the rest stay (`FileStore.StoppedPart`). The models directory itself is kept, nothing is added and nothing else is touched. No exception escapes. |
| VoiceReset.ResetIdempotent | backend/voice_auth/utils.py:20-36 | After a call that emptied the models directory, a second call finds no samples to remove, empties an already empty models directory, changes nothing and returns true. |
| VoiceEnrollment.CollectVoiceSamples | backend/voice_auth/enrollment.py:42-92 | The samples directory is created if missing. Samples 1.. are written until the first failure k. The result is true iff k > 5. The store gains exactly `sample_1.wav`..`sample_{k-1}.wav`. The log is the exact sequence of prompts, countdowns and saved or failed lines. |
| VoiceEnrollment.CollectAll | backend/voice_auth/enrollment.py:52-92 | The five-iteration loop stops at the first failing sample. Written files and events match `FirstFailure`. |
| VoiceEnrollment.CollectSample | backend/voice_auth/enrollment.py:53-83 | One iteration prompts for sample n of 5, counts down, records, and saves `sample_n.wav` exactly when the recorder and the write succeed. |
| VoiceEnrollment.SaveSample | backend/voice_auth/enrollment.py:70-83 | `sample_n.wav` is written iff the microphone succeeds for sample n with 64000 frames and the path can be written. |
| VoiceEnrollment.PromptForSample | backend/voice_auth/enrollment.py:56-68 | The prompt names sample n of 5 and the passphrase, then three countdown lines and "Recording now". |
| VoiceEnrollment.FirstFailure | backend/voice_auth/enrollment.py:52-83 | The first sample that is not saved: every sample before it saves, and it does not. |
| VoiceEnrollment.SuccessLeavesFiveSamples | backend/voice_auth/enrollment.py:88-92 | On success, `sample_1.wav`..`sample_5.wav` are all regular files. |
| VoiceEnrollment.FailureStopsWriting | backend/voice_auth/enrollment.py:78-83 | From the failing sample on, no sample file is created or changed. |
| VoiceEnrollment.SavedBeforeFailure | backend/voice_auth/enrollment.py:78-83 | Any saving sample before the first failure comes strictly before it. |
| VoiceEnrollment.SampleNameInjective | backend/voice_auth/enrollment.py:54 | Distinct sample numbers give distinct file names. |
| VoiceEnrollment.WrittenHolds | backend/voice_auth/enrollment.py:52-54 | The files written before sample k are exactly `sample_j.wav` for 1 ≤ j < k. |
| VoiceEnrollment.EnrollmentQuiet | backend/voice_auth/enrollment.py:42-92 | Enrollment never emits a front-end control signal. |
| VoiceTrainer.TrainVoiceModel | backend/voice_auth/trainer.py:33-109 | Without samples the store is unchanged and the report is the missing-samples error. Otherwise the models directory is created, every `user_1_voice_model*` entry is removed, and the fit's files are written. The files a fit writes before it raises stay, with nothing else of a model left. The result is true iff the fit returns and at least one model file exists afterwards. A failing removal or a raising fit yields false. A failing removal leaves the partial cleanup of `FileStore.StoppedPart`. |
| VoiceTrainer.SamplesPresent | backend/voice_auth/trainer.py:37 | The guard is true iff the samples directory exists and is not empty. |
| VoiceTrainer.RemoveOldModel | backend/voice_auth/trainer.py:63-68 | The result is true iff no `user_1_voice_model*` entry holds a locked path, and then every such entry is removed. Otherwise the model entries listed before the first one holding a locked path are gone. That entry and the rest stay, as `FileStore.StoppedPart` states. |
| VoiceTrainer.WriteModelFiles | backend/voice_auth/trainer.py:82-87 | Training writes exactly the fit's model files. |
| VoiceTrainer.ModelFound | backend/voice_auth/trainer.py:89 | `any(glob(base + "*"))` holds iff some model file is present. |
| VoiceTrainer.Glob | backend/voice_auth/trainer.py:63 | The glob keeps exactly the listed names with the model base as prefix, without duplicates. |
| VoiceTrainer.CleanedHasNoModel | backend/voice_auth/trainer.py:63-68 | After the cleanup, no model file is left. |
| VoiceTrainer.TrainedModelNames | backend/voice_auth/trainer.py:82-89 | After training, the model files present are exactly the base plus each written suffix, whether or not the fit then raised. |
| VoiceTrainer.TrainingKeepsSamples | backend/voice_auth/trainer.py:49-87 | Training never touches the samples. |
| VoiceTrainer.TrainedPrimaryModel | backend/voice_auth/trainer.py:89-96 | The primary model file exists after training iff the fit wrote the `.svm_classifier_MEANS` suffix. |
| VoiceVerification.VerifyVoice | backend/voice_auth/verification.py:39-116 | No primary model file means false, with no recording and no store change. Otherwise the temporary directory is prepared and the sample recorded and classified. The result is the verdict, and the temporary directory is removed on every path. A failing removal on the recording-failure path escapes, because that `rmtree` is outside any `try`. |
| VoiceVerification.RecordAndClassify | backend/voice_auth/verification.py:57-116 | After the countdown, a failed recording reports the error. A successful one reports "Verifying" and the verdict. The final clean-up follows in both cases. |
| VoiceVerification.RecordSample | backend/voice_auth/verification.py:65-69 | The sample file is written iff the microphone works and the path can be written. |
| VoiceVerification.RemoveTempDir | backend/voice_auth/verification.py:75-116 | The temporary directory is removed with everything in it, unless some entry cannot be removed. An absent directory is left alone. |
| VoiceVerification.Verdict | backend/voice_auth/verification.py:83-103 | Acceptance holds iff the classifier answered, the winner index is valid for both the names and the probabilities in Python's indexing, the label at it is "user_1" and the probability at the same index is ≥ 0.7. Every other answer rejects or fails. |
| VoiceVerification.PyIndexWraps | backend/voice_auth/verification.py:85-86 | Index i - len denotes the same element as i. |
| VoiceVerification.AcceptsMonotone | backend/voice_auth/verification.py:92 | A higher confidence for the same label never turns acceptance into rejection. |
| VoiceVerification.VerificationKeepsModels | backend/voice_auth/verification.py:39-116 | Verification never changes the models directory. |
| VoiceVerification.NoRecordingLeft | backend/voice_auth/verification.py:110-116 | When the clean-up can remove it, neither the temporary directory nor the recording remains. |
| VoiceVerification.VerificationQuiet | backend/voice_auth/verification.py:39-116 | Verification never emits a front-end control signal, so only main.py opens the interface. |
| FaceReset.DeleteExistingFaceData | backend/auth/utils.py:7-44 | Every non-hidden entry of the samples directory gets one `os.remove`, and a failure does not stop the others. Then the trainer file is removed if present. The store becomes `FaceCleared`, and no exception escapes. |
| FaceReset.RemoveSamples | backend/auth/utils.py:17-23 | The removal loop over the glob's matches removes exactly the removable ones, in any order. |
| FaceReset.Visible | backend/auth/utils.py:12 | `glob('*')` drops exactly the names starting with '.'. |
| FaceReset.SampleFate | backend/auth/utils.py:12-37 | A matched sample is gone iff `os.remove` could take it. Nothing other than matched samples and the trainer file changes. |
| FaceReset.NothingToDelete | backend/auth/utils.py:14-37 | With no matches and no trainer file, nothing changes. |
| FaceReset.FaceResetIdempotent | backend/auth/utils.py:7-44 | A second call right after the first changes nothing. |
| FaceReset.NoMatchWithoutDir | backend/auth/utils.py:12 | Without a samples directory, the glob matches nothing. |
| FaceSample.CollectFaceSamples | backend/auth/sample.py:15-87 | The samples directory is ensured first. A missing cascade file returns false before any camera is touched. Otherwise the first working camera of 0, 1, 2 is used. `face.1.<n>.jpg` is written for n = 1..count, and the result is true iff count ≥ 50. Every camera opened is released. |
| FaceSample.ProbeCameras | backend/auth/sample.py:30-41 | Indices are tried in order and the first that opens is chosen. Each one that fails is released. The result is `None` iff none opens. |
| FaceSample.CaptureFaces | backend/auth/sample.py:50-71 | Frames are read until one fails or the count reaches 50. Every face of every frame read counts and is saved, so the files are consecutive from 1. |
| FaceSample.SaveFaces | backend/auth/sample.py:59-63 | The faces of one frame are saved as the next consecutive numbers. |
| FaceSample.SavedNames | backend/auth/sample.py:62 | `face.1.<j>.jpg` is among the saved files iff 1 ≤ j ≤ count. |
| FaceSample.FaceNameInjective | backend/auth/sample.py:62 | Distinct counts give distinct file names. |
| FaceSample.CapturedIsSum | backend/auth/sample.py:50-71 | The count reaches 50 iff the faces in all frames add up to at least 50. Below 50, the count is that sum. |
| FaceSample.CapturedOvershoot | backend/auth/sample.py:59-70 | The count exceeds 50 by less than the largest number of faces in one frame. |
| FaceSample.OvershootExample | backend/auth/sample.py:59-70 | A frame of 3 faces after 49 saved ones gives 52 files. |
| FaceSample.CamerasReleased | backend/auth/sample.py:30-79 | Every camera index ends with as many releases as opens. |
| FaceSample.FirstWorking | backend/auth/sample.py:30-41 | The camera chosen is the lowest working index below 3. |
| FaceTrainer.GetImagesAndLabels | backend/auth/trainer.py:11-50 | The images are the non-hidden entries of the directory. Each image that parses contributes one face and one id per detected region. |
| FaceTrainer.AddImages | backend/auth/trainer.py:17-46 | The loop over images gathers the faces and labels of every image in listing order. |
| FaceTrainer.AddImage | backend/auth/trainer.py:17-46 | An unparseable name or an image without faces adds nothing. Otherwise one face and one id are added per region. |
| FaceTrainer.AddRegions | backend/auth/trainer.py:42-44 | Each region appends one crop and one copy of the id. |
| FaceTrainer.ParseId | backend/auth/trainer.py:23-34 | A name gives an id iff it has at least 3 dot-separated parts and the second is all digits. |
| FaceTrainer.LabelsMatchSamples | backend/auth/trainer.py:40-44 | `faces` and `ids` always have equal length, and each id is the id parsed from its face's image name. |
| FaceTrainer.FacesFound | backend/auth/trainer.py:48-71 | Some face is found iff some image both parses and shows a face. |
| FaceTrainer.SampleNameParses | backend/auth/trainer.py:23-34 | Every name `face.1.<n>.jpg` that the sample collector writes parses back to id 1. |
| FaceTrainer.TrainFaceModel | backend/auth/trainer.py:52-84 | The result is false, with no change, when the cascade is missing, the samples directory is missing or empty, or no face is recovered. Otherwise it is true iff training succeeds and the trainer file can be written. On success the trainer directory and `trainer.yml` exist. |
| FaceTrainer.TrainAndWrite | backend/auth/trainer.py:74-84 | After training, `makedirs(exist_ok=True)` and the write succeed iff no file is in the way. On failure nothing changes. |
| FaceTrainer.MakeDirsNoOp | backend/auth/trainer.py:78 | `makedirs` of an existing directory chain changes nothing. |
| ApiService.LookupKey | backend/api_service.py:7-33 | A non-empty environment variable wins. Otherwise the key comes from the readable config file iff it is present, non-empty and not the placeholder. A returned key is never empty. |
| ApiService.GetOpenWeatherMapApiKey | backend/api_service.py:35-61 | The same rule with `OPENWEATHERMAP_API_KEY` and its own placeholder. |
| ApiService.EnvironmentWins | backend/api_service.py:13-16 | With the variable set, the config file is irrelevant. |
| ApiService.PlaceholderNeverReturned | backend/api_service.py:24-52 | Without the variable, neither lookup returns its placeholder. |
| ApiService.NoFileNoKey | backend/api_service.py:19-33 | A missing or unreadable config file, with no variable, gives no OpenAI key. |
| ApiService.KeysIndependent | backend/api_service.py:13 | Other environment variables do not affect the OpenAI key. |
| LlmService.GetOpenAIApiKey | backend/llm_service.py:7-36 | A returned key is never empty. |
| LlmService.SameRuleAsApiService | backend/llm_service.py:7-36 | The lookup is the same env-then-config rule with `backend/config_openai.json` and "YOUR_API_KEY_HERE". |
| LlmService.ServicesAgreeOnEnvironment | backend/llm_service.py:14-17 | When the variable is set, both services return it. |
| LlmService.ServicesDisagreeOnPlaceholders | backend/llm_service.py:25 | The two services reject different placeholders. Each returns the other's placeholder as a key. |
| Feature.OpenCommand | backend/feature.py:51-84 | Nothing happens iff the cleaned application name is empty. |
| Feature.OpenLookupOrder | backend/feature.py:60-81 | Exactly one way of opening is tried: `sys_command` if the name is there, else `web_command`, else the shell's `start`. |
| Feature.ReplaceIsSinglePass | backend/feature.py:52-53 | `replace("open", "")` is one pass: "oopenpen" becomes "open". |
| Feature.NormalizePhone | backend/feature.py:143-145 | A number starting with "+91" is kept. Any other becomes "+91" plus the number without leading zeros. |
| Feature.StripZeros | backend/feature.py:145 | `lstrip('0')` drops exactly the leading zeros. |
| Feature.NormalizeIdempotent | backend/feature.py:143-145 | Normalising twice is normalising once. |
| Feature.FirstMatch | backend/feature.py:140-142 | The contact found is the first in table order whose lower-cased name contains the query. There is none iff no name does. |
| Feature.FindContact | backend/feature.py:134-153 | A number is found iff the database works and some contact matches the cleaned, lower-cased query. The number returned is the first match's, standardised to start with "+91", paired with the query as the name, and nothing is spoken. Otherwise nothing is returned: a database error speaks the contact error, and no match speaks "Contact <name> not found.". |
| Feature.QuoteRoundTrip | backend/feature.py:173 | What `shlex.quote` promises as shell quoting: a POSIX shell reading the quoted word gets back exactly the text. The source places the word inside a URL rather than a shell word, so the message WhatsApp receives is not recovered (see Findings). |
| Feature.ReadSafe | backend/feature.py:173 | A POSIX shell reads a word of `shlex.quote`'s safe characters as itself. |
| Feature.ReadEscaped | backend/feature.py:173 | Inside single quotes, a POSIX shell reads `shlex.quote`'s `'"'"'` escape as one quote. |
| Feature.ShellQuotingInUrl | backend/feature.py:173-175 | As written, the URL's `text` field holds the shell-quoted message, which a URL reader does not undo. "a b" arrives as "'a b'", quotes included. "a&b" arrives as "'a", because the `&` starts the next query field. |
| UrlQuote.PercentRoundTrip | backend/feature.py:173-174 | A percent-encoded message contains no `&`, so it is one whole query field. An application decoding that field gets back exactly the message, for any Unicode text. |
| UrlQuote.PercentRoundTripBytes | backend/feature.py:173 | Percent-decoding undoes percent-encoding, byte for byte. |
| UrlQuote.Utf8RoundTrip | backend/feature.py:173 | UTF-8 decoding undoes the UTF-8 encoding that `quote` applies before escaping. |
| UrlQuote.PlainText | backend/feature.py:174 | A query field of ASCII characters other than `%` and `&` reads as itself. |
| Feature.TargetTab | backend/feature.py:161-171 | The tab count is 12, 7 or 6. |
| Feature.WhatsApp | backend/feature.py:156-199 | The loop presses Tab `target_tab` times. The whole trace equals `WhatsAppTrace`: an empty phone speaks and stops before any shell command. A failing `start` speaks the per-contact apology. A key press that raises stops the presses and speaks "An unexpected error occurred with WhatsApp." The URL is the program's, with the shell-quoted text (`ShellQuotedUrl`, see Findings). |
| Feature.TabsThenEnter | backend/feature.py:161-192 | With a phone and a working shell, the trace has exactly `TargetTab(flag)` Tab presses and one Enter. All the Tabs come before the Enter, and the confirmation follows. |
| Feature.CountPresses | backend/feature.py:189-190 | The press loop produces `n` Tabs and nothing else. |
| Feature.KeyFailureStops | backend/feature.py:189-199 | When key press `k` raises, exactly `k` Tabs were pressed, Enter never was, and the trace ends with the generic handler's apology. |
| Feature.CallsSendQuotedEmpty | backend/feature.py:164-175 | A call or video call clears the text, but the empty text is still shell-quoted. So the URL's `text` field is `''`, which the application reads as two apostrophes. With the intended percent-encoding (`WhatsAppUrl`) the field would be empty. |
| Feature.ChatMessages | backend/feature.py:214-219 | The message list is the system prompt, then the history unchanged, then the user query. |
| Feature.ChatBot | backend/feature.py:202-248 | With no key the fixed notice is returned, and a failing client gives the initialisation apology. A completed request returns the stripped reply. A completion that raises makes the call raise (see Findings). |
| Feature.ChatBotIntended | backend/feature.py:232-248 | The corrected `chatBot`: a completion that raises gets the answer of the handler meant for its exception. |
| Feature.ChatBotAsWritten | backend/feature.py:202-248 | The call raises iff a key is found, the client is made and the completion raises. Otherwise it answers what the corrected `chatBot` answers. |
| Command.MatchKeyword | backend/command.py:148-180 | The loop over the mapping returns the first key in mapping order contained in the query. |
| Command.FirstKeyFrom | backend/command.py:176-180 | The key chosen is contained in the query and no earlier key is. There is none iff no key is contained. |
| Command.VideoCallKeyUnreachable | backend/command.py:150-152 | "call" precedes "video call" and is part of it, so the "video call" key never fires. |
| Command.WhatsAppFlag | backend/command.py:114-123 | A flag is chosen iff the query contains "send message", "call" or "video call". |
| Command.VideoFlagUnreachable | backend/command.py:117-120 | The 'video call' flag is never chosen. |
| Command.DispatchedRequestsHaveFlag | backend/command.py:113-123 | A query dispatched to `handle_whatsapp_request` always gets a flag, 'message' or 'call'. |
| Command.HandleWhatsAppRequest | backend/command.py:113-137 | The trace equals `RequestTrace`. With no flag, a prompt is spoken. With no contact, `findContact`'s notice is spoken. For a message, the content is asked for and nothing is sent without it. Otherwise `whatsApp` runs with the query. |
| Command.ActOnContact | backend/command.py:126-135 | The branch on the flag once the contact is known. |
| Command.SendDictated | backend/command.py:127-133 | The message branch: ask, then send the dictated text or cancel. |
| Command.EmptyNameIsSilent | backend/command.py:125-137 | A query that reduces to an empty name matches any contact, but `if Phone and name` then drops the action silently. |
| Command.WeatherCity | backend/command.py:186-194 | The city is stripped. |
| Command.SecondPhraseNeverDecides | backend/command.py:187-188 | "how's the weather in" contains "weather in", so its branch never decides the city. |
| Command.LookupOnlyWithCity | backend/command.py:196-200 | The weather is looked up iff the city is not empty, and only for that city. Otherwise the clarification prompt is spoken. |
| Command.CityExample | backend/command.py:182-194 | "weather in paris?" asks about "paris". |
| Command.KeepLast | backend/command.py:207-208 | The trim keeps the newest `min(n, len)` entries in order. |
| Command.ChatLogKeepsNewest | backend/command.py:203-209 | After a chat turn the log has at most 10 entries. It ends with the turn's user entry and assistant entry, each only if non-empty, and before them comes a suffix of the old log. With room, nothing is dropped. |
| Command.ChatRequestBounded | backend/command.py:203-209 | A chat request carries at most 12 messages. |
| Command.RunHandler | backend/command.py:148-178 | The handler called is the one the key selects. |
| Command.Assistant.TakeAllCommands | backend/command.py:159-214 | With nothing heard, only `ShowHood` is emitted. Otherwise the call emits `senderText(query)` with the query lower-cased, then the handler of the first key, the weather reply or the chat reply, then `ShowHood`. When `chatBot` raises, the outer `except` speaks "Sorry, something went wrong while processing your command." instead of a reply. The log changes only on a chat turn that gets an answer. It stays at most 10 entries long. |
| Command.Assistant.ChatTurn | backend/command.py:204-209 | Once `chatBot` has answered, the answer is spoken and the log becomes `ChatLog` of the turn. |
| Command.ChatErrorSaysSorry | backend/command.py:203-213 | A chat turn whose completion raises speaks only the outer handler's apology and leaves the log unchanged. The corrected `chatBot` would answer with that exception's own message, which differs from the apology. |
| Command.TimeQueryKey | backend/command.py:154-180 | "what time is it" is dispatched to the time handler. |
| Command.TimeQueryTellsTime | backend/command.py:142-145 | "what time is it" speaks "The current time is " plus the clock, and leaves the log alone. |

## Left out

- I/O and devices are parameters of the model, not modelled. This covers the
  microphone (`sounddevice`, `wav.write`), the camera (`cv2.VideoCapture`),
  the face detector and LBPH recogniser, `pyAudioAnalysis` training and
  classification, the OpenAI client, `requests` in `backend/weather.py`,
  the SQLite database, `os.startfile`, `os.system`, `webbrowser`,
  `pywhatkit` and `subprocess`.
- `speak` and `takecommand` in `backend/command.py` and
  `play_assistant_sound` in `backend/feature.py` are not modelled. The first
  is an event in the log. What `takecommand` heard is an input. The third
  is the `PlaySound` event.
- `hotword` in `backend/feature.py` is left out. It is an endless
  audio-stream loop driving keyboard macros.
- `backend/weather.py` is not part of this model. `get_weather` is a
  function from city to reply text.
- `backend/helper.py` (`remove_words`, `extract_yt_term`) and
  `backend/config.py` (`ASSISTANT_NAME`) are not part of this model. They
  are fields of `Feature.World`.
- `get_time_command`'s clock is an input string.
- The `time.sleep` pauses, `print` output and the `__main__` blocks are
  left out.
- The front end is taken as connected. Each `eel_show_info` is a `ShowInfo`
  event, never the "not connected" print.
- Exception texts and run-time values inside messages (an exception's
  text, a formatted confidence) are constructor arguments or dropped. Only
  main.py's own sentences are exact.
- `VoiceReset.DeleteExistingVoiceData`: `shutil.rmtree` is all or nothing
  in the model (it fails iff some path under it is locked). A real `rmtree`
  can fail after removing part of the tree.
- The `Layout.WellPlaced` precondition excludes a file sitting where the
  program expects one of its directories. There, `os.makedirs` or
  `os.listdir` raise uncaught in the source.
- Symbolic links, permissions other than "removal fails" and concurrent
  changes to the file system are left out.
- `FaceSample.CollectFaceSamples`: the camera yields a finite list of
  frames, and the list's end is a failed read. A camera that never fails and
  never shows a face makes the source loop forever; the model does not
  capture that.
- `FaceSample.CollectFaceSamples`: `cam.set` of the frame size and
  `destroyAllWindows` are left out.
- `FaceTrainer.GetImagesAndLabels`: the detector is a function of the image
  name. An image that cannot be opened counts as showing no face, which is
  the same skip as the source's per-image `except`.
- `FaceTrainer.TrainFaceModel`: the recogniser's `train` is a boolean input.
  A `makedirs` that raises because a file is in the way is a failed write,
  caught like the source's `except`.
- `VoiceTrainer.TrainVoiceModel`: the second `isdir` guard
  (`backend/voice_auth/trainer.py:52-57`) can never fail once the first
  guard passed under `WellPlaced`, so it has no branch in the model.
- `VoiceVerification.Verdict`: the confidence is compared as an exact real
  with 0.7. Floating-point rounding is left out.
- `Common.Lower`, `Common.IsSpace`, `Common.IsDigit`: ASCII only. Python's
  Unicode case mapping, whitespace and digit classes are wider.
- `Feature.FirstMatch`: the SQL `LIKE` patterns are taken as substring
  tests. `%` or `_` inside the query are not wildcards in the model. Rows
  come back in table order.
- `Feature.WhatsApp`: `subprocess.run` is taken to fail only through its
  exit status (`CalledProcessError`). An `OSError` from starting the shell,
  which would reach the `except Exception` branch
  (backend/feature.py:197-199), is not modelled. That branch is modelled
  for a raising key press.
- `Feature.WhatsApp`: the second `subprocess.run` is taken to behave like
  the first.
- `Feature.WhatsApp`: the trace opens the URL as written
  (`Feature.ShellQuotedUrl`), so it does not promise that WhatsApp receives
  the message. The corrected URL of the finding below is
  `Feature.WhatsAppUrl`, and its round trip is proved separately.
- `UrlQuote.ReceivedText`: the receiving application is taken to cut the
  query at the next `&` and to percent-decode the field as UTF-8. Reading
  `+` as a space is not modelled.
- `VoiceTrainer.RemoveOldModel`, `VoiceReset.DeleteExistingVoiceData`,
  `Startup.HandleVoiceEnrollmentDecision`: the order in which `os.listdir`
  reports entries is not modelled. When a removal fails, the store may be
  any partial cleanup that some listing order produces: the entries
  removed are free of locked paths, and an entry holding one stays.
- `Feature.ChatBot`: the completion's exceptions are the five kinds its
  handlers name. That the `openai` library defines them at module level,
  and not on the `OpenAI` client class, is an assumption about a library
  that is not part of this model. The model name, temperature and token
  limit are left out.
- `ApiService.LookupKey`: config values that are not strings, such as
  numbers or lists, are read as absent.
- `Feature.OpenCommand`: `os.system` reports failure through its exit
  status and does not raise, so the inner `except` is not modelled.
- `Command.Assistant.TakeAllCommands`: `takecommand` is an input source
  (`Inputs.heard`, and `Inputs.dictation` for a dictated message). Its own
  speech is not in the trace: the echo of what it heard
  (backend/command.py:102) and its apology when nothing is understood
  (backend/command.py:105).
- `Command.Assistant.TakeAllCommands`: the outer `except` is modelled for
  a raising `chatBot` only. The foreign calls of the other handlers
  (`kit.playonyt`, `extract_yt_term`, `get_weather`, the speech engine)
  are taken not to raise, so the `except` does not arise for them.
- `Command.WeatherTrace` states its reply only through
  `LookupOnlyWithCity`.
- `Feature.PlayYoutube` has no contract of its own. It speaks the extracted
  term and plays it, and `extract_yt_term` is a parameter.

## Findings

| source | as written | input that shows it | evidently intended | confidence | as-written member | corrected member |
|---|---|---|---|---|---|---|
| backend/feature.py:164-175 | The message is put in the URL's `text` field through `shlex.quote`, which quotes for a POSIX shell. The URL is then passed inside double quotes to `start`, where no shell removes those quotes. | Message "a b" gives `text='a b'`, which reads back as "'a b'". Message "a&b" gives `text='a&b'`, whose field ends at the `&` and reads back as "'a". A call or video call clears the message, and `shlex.quote` of the empty text gives `text=''`, read back as two apostrophes (`Feature.CallsSendQuotedEmpty`). | Percent-encode the message, as `urllib.parse.quote` does, so that WhatsApp reads back exactly the message. | not executed; medium | Feature.ShellQuotingInUrl | UrlQuote.PercentRoundTrip |
| backend/feature.py:234-248 | The handlers name their exceptions as `OpenAI.APIConnectionError` and so on, where `OpenAI` is the client class imported at line 26. When the completion raises, evaluating the first handler's class raises `AttributeError`, which leaves `chatBot`. The outer `except` of `takeAllCommands` (backend/command.py:211-213) then catches it. | A valid key and a completion that raises a connection error. The user hears "Sorry, something went wrong while processing your command." instead of the connection message, and the turn is not logged. | Name the library's module-level exception classes, so that each error gets its handler's answer and the turn is logged. | not executed; medium (depends on the `openai` library) | Command.ChatErrorSaysSorry | Feature.ChatBotIntended |
