# CleverThera transcription client — a Dafny model

This project models the logic of the CleverThera web client: the page where
a therapist records a session (microphone plus system/tab audio sent to a
real-time speech service) and watches the transcript grow, the microphone
selector, the transcript panel, and the login form.

- `transcript.dfy` (module `Transcript`): the data-channel message updater of
  the `useAudioCapture` hook. A decoded message with a truthy `text` becomes
  one entry (`speaker || "Modelo"`, `text`, `timestamp || now`). The entry is
  appended and the list re-sorted by timestamp with the engine's stable sort.
  The sort is written as an insertion sort, `SortByTimestamp`, whose
  properties are stated as lemmas.
  `StableSortUnique` proves that any stable sort by timestamp gives the same
  list.
- `capture.dfy` (module `AudioCapture`): the hook's five slots, as a class
  `CaptureSession`. These are the peer connection, the data channel, and the
  microphone, system and combined streams. `StartCapture` fills the slots
  step by step, and `StopCapture` releases and clears them. Platform objects
  are opaque handles. The outcome of each platform step is an input
  (`StartInputs`). The platform calls are recorded in order in
  `CaptureSession.calls`. The pure functions `AfterStart`, `StartCalls`,
  `StartAlert` and `Teardown` specify the methods, and the lemmas are stated
  about those functions.
- `page.dfy` (module `TranscriptionPage`): the page's recording flag, the
  start/stop press, the transcript state and the stream panels.
- `devices.dfy` (module `DeviceSelector`): the audio-input filter, the option
  labels and the select value.
- `panel.dfy` (module `Panel`): transcript entries to rendered rows.
- `login.dfy` (module `LoginPage`): the login/registration form as a class.
  Its inputs are the auth service's replies. Its outputs are recorded: auth
  requests, navigations and alerts.
- `wrappers.dfy` (module `Wrappers`): `Option`, and the outcome of one
  awaited platform call.

Behaviour the code has and a reader might not expect (the model follows the code):

- The device filter keeps audio inputs whose `deviceId` is empty. These are
  listed before permission is granted. Choosing one makes the hook request
  the default microphone, because an empty id is falsy
  (`TranscriptionPage.EmptyIdChoosesDefaultMic`).
- A start that fails part-way does not roll back. The catch only reports the
  error, so the slots already filled stay set until the next stop
  (`AudioCapture.StartReleasesNothing`, `AudioCapture.RefusedDisplayKeepsMic`).
  The press still sets the recording flag.
- The merge does not depend on arrival order when timestamps differ
  (`Transcript.ArrivalOrderIrrelevant`). On a tie it does: entries with equal
  timestamps keep their arrival order (`Transcript.TiesKeepArrivalOrder`).
- `stopCapture` never stops the combined stream's tracks and never closes the
  local `AudioContext`. It only clears the slot (`AudioCapture.TeardownStopsHeldTracks`).
- The panel's `??` keeps an empty speaker. The ingest's `||` would have
  replaced it, so every entry the page holds names a non-empty speaker. The
  "Sistema" fallback is therefore never shown (`TranscriptionPage.TranscriptionPage.RowsNameTheirSpeaker`).

## Model

| member | source | states |
|---|---|---|
| `Transcript.NewEntry` | src/hooks/useAudioCapture.ts:85-89 | speaker is `msg.speaker` when non-empty, else "Modelo", and never empty; text is `msg.text`; timestamp is `msg.timestamp` when non-zero, else `now` (so 0 is replaced) |
| `Transcript.Ingest` | src/hooks/useAudioCapture.ts:73-98 | a message that failed to parse or has no/empty `text` leaves the list unchanged; otherwise the list grows by one, is sorted ascending by timestamp, and is a permutation of the old list plus the new entry |
| `Transcript.InsertPermutes` | src/hooks/useAudioCapture.ts:91 | one insertion step adds exactly the new entry: the multiset is the old entries plus it |
| `Transcript.InsertSorted` | src/hooks/useAudioCapture.ts:91 | one insertion step keeps a sorted list sorted |
| `Transcript.SortSorted` | src/hooks/useAudioCapture.ts:91 | the sort's result is sorted ascending by timestamp |
| `Transcript.SortPermutes` | src/hooks/useAudioCapture.ts:91 | the sort's result is a permutation of its input |
| `Transcript.SortStable` | src/hooks/useAudioCapture.ts:91 | for every timestamp, the entries that share it appear in the same relative order after the sort as before (stability) |
| `Transcript.StableSortUnique` | src/hooks/useAudioCapture.ts:91 | any list that is sorted and keeps each timestamp's entries in input order equals `SortByTimestamp`, so the model agrees with every stable sort |
| `Transcript.SortIsStableSort` | src/hooks/useAudioCapture.ts:91 | the model's sort is a stable sort of its input: sorted and every timestamp's entries in input order |
| `Transcript.InsertWithTimestamp` | src/hooks/useAudioCapture.ts:91 | inserting into a sorted list appends the new entry to its own timestamp's entries and changes no other timestamp's entries |
| `Transcript.SortOfSorted` | src/hooks/useAudioCapture.ts:91 | re-sorting an already sorted list changes nothing |
| `Transcript.InsertSplit` | src/hooks/useAudioCapture.ts:91 | inserting splits the list at `Position`: the old entries keep their order, with the new one between them |
| `Transcript.IngestIsInsert` | src/hooks/useAudioCapture.ts:83-91 | appending and re-sorting equals inserting the new entry into the sorted previous list |
| `Transcript.OneEntry` | src/hooks/useAudioCapture.ts:83-91 | the first message with text gives a one-entry transcript |
| `Transcript.IngestIntoSorted` | src/hooks/useAudioCapture.ts:83-91 | into a sorted list, the new entry lands after every old entry with an equal or smaller timestamp and before every later one, the old entries keeping their order |
| `Transcript.IngestStable` | src/hooks/useAudioCapture.ts:83-91 | for any previous list, the new entry comes after every older entry that shares its timestamp, and other timestamps' entries are unchanged |
| `Transcript.InsertCommutes` | src/hooks/useAudioCapture.ts:91 | two entries with different timestamps inserted in either order give the same list |
| `Transcript.ArrivalOrderIrrelevant` | src/hooks/useAudioCapture.ts:82-93 | two messages whose entries have different timestamps give the same list in either arrival order |
| `Transcript.InsertPair` | src/hooks/useAudioCapture.ts:91 | a new entry goes before a single existing one only when strictly earlier, after it on a tie |
| `Transcript.TwoMessages` | src/hooks/useAudioCapture.ts:82-93 | two messages into an empty transcript: the second is listed first exactly when its timestamp is strictly earlier |
| `Transcript.TiesKeepArrivalOrder` | src/hooks/useAudioCapture.ts:82-93 | two messages with equal timestamps give different lists in the two arrival orders: ties keep arrival order |
| `Transcript.EarlierTimestampListedFirst` | src/hooks/useAudioCapture.ts:82-93 | messages A at 100 then B at 50 give the list [B at 50, A at 100] |
| `DeviceSelector.AudioInputs` | src/components/AudioDeviceSelector.tsx:17-19 | every kept device is an `audioinput`, and the result is no longer than the enumeration |
| `DeviceSelector.AudioInputsCount` | src/components/AudioDeviceSelector.tsx:17-19 | each `audioinput` device, an empty deviceId included, is kept as often as it was enumerated; every other kind is dropped |
| `DeviceSelector.AudioInputsConcat` | src/components/AudioDeviceSelector.tsx:17-19 | the filter keeps enumeration order: filtering a concatenation concatenates the filtered parts |
| `DeviceSelector.AudioInputsIdempotent` | src/components/AudioDeviceSelector.tsx:17-20 | filtering the stored list again changes nothing |
| `DeviceSelector.OptionText` | src/components/AudioDeviceSelector.tsx:36 | an option's text is never empty; it is the label when non-empty, else "Dispositivo " followed by the device id, from which the id can be read back |
| `DeviceSelector.Options` | src/components/AudioDeviceSelector.tsx:34-38 | one option per device, in order, valued by the device id and labelled by `OptionText` |
| `DeviceSelector.SelectValue` | src/components/AudioDeviceSelector.tsx:30 | the select shows '' exactly when no id (or the empty id) is selected, and the selected id otherwise |
| `DeviceSelector.ChosenIsShown` | src/components/AudioDeviceSelector.tsx:30-35 | choosing the i-th option passes that device's id to the setter unchanged, and the select then shows it |
| `Panel.SpeakerLabel` | src/components/TranscriptionPanel.tsx:19 | the label is the speaker when present, including an empty one, and "Sistema" only when it is absent |
| `Panel.Rows` | src/components/TranscriptionPanel.tsx:17-21 | one row per entry, in list order, with the text verbatim and the speaker label of that entry |
| `Panel.RowsIgnoreTimestamps` | src/components/TranscriptionPanel.tsx:17-21 | lists that differ only in timestamps render the same rows |
| `Panel.IngestKeepsAttributed` | src/hooks/useAudioCapture.ts:82-93 | if every entry names a non-empty speaker, the same holds after the updater runs |
| `Panel.IngestAllKeepsAttributed` | src/hooks/useAudioCapture.ts:82-93 | over any sequence of messages, a transcript whose entries all name a non-empty speaker keeps that property |
| `Panel.IngestedRowsNamedSpeaker` | src/components/TranscriptionPanel.tsx:19 | in a transcript built by the updater from the empty list, every row shows the entry's own speaker, never the fallback |
| `AudioCapture.MicConstraintFor` | src/hooks/useAudioCapture.ts:41-44 | the microphone is constrained to the selected id exactly when it is present and non-empty; otherwise the default device is used |
| `AudioCapture.SessionKey` | src/hooks/useAudioCapture.ts:29-34 | the key is obtained exactly when the fetch succeeded, the response is ok and `client_secret.value` is non-empty, and it is that value |
| `AudioCapture.Progress` | src/hooks/useAudioCapture.ts:26-150 | a start reaches one of five stages, numbered 0 to 4 |
| `AudioCapture.StartAbortsBeforeResources` | src/hooks/useAudioCapture.ts:29-38 | a failed or not-ok session reply, or an empty/absent key, ends the start with the slots unchanged and no call except the session fetch, and gives the matching alert |
| `AudioCapture.AlertIffIncomplete` | src/hooks/useAudioCapture.ts:146-149 | a start raises an alert exactly when it does not reach the combined stream |
| `AudioCapture.MicRequestedWithSelection` | src/hooks/useAudioCapture.ts:37-45 | after the key, the calls are: create the peer connection, then request the microphone with the selected id or the default |
| `AudioCapture.AllTracksAttached` | src/hooks/useAudioCapture.ts:57-63 | once both streams are acquired, every microphone track and every system track is added to the peer connection with its stream |
| `AudioCapture.StartReleasesNothing` | src/hooks/useAudioCapture.ts:37-53 | no start issues a release call, and the slots filled before a failure stay set (no rollback in the catch) |
| `AudioCapture.RefusedDisplayKeepsMic` | src/hooks/useAudioCapture.ts:45-53 | when system capture is refused after the microphone was granted, the peer connection and microphone stay held and no track is stopped |
| `AudioCapture.StartKeepsStaged` | src/hooks/useAudioCapture.ts:26-150 | a start keeps the slot-filling order invariant (combined, then channel, then system, then mic, then peer, each requiring the next) |
| `AudioCapture.TeardownOfIdle` | src/hooks/useAudioCapture.ts:153-171 | stopping an idle session issues no call, so a second stop releases nothing |
| `AudioCapture.TeardownOrdered` | src/hooks/useAudioCapture.ts:153-169 | the teardown only releases, channel close before peer close before track stops |
| `AudioCapture.TeardownStopsHeldTracks` | src/hooks/useAudioCapture.ts:162-170 | every held microphone and system track is stopped once per appearance, and no other track (the combined stream's are not stopped) |
| `AudioCapture.CaptureSession.constructor` | src/hooks/useAudioCapture.ts:17-23 | a new session holds no slot and has issued no call |
| `AudioCapture.CaptureSession.AttachTracks` | src/hooks/useAudioCapture.ts:57-63 | the loop adds each of the stream's tracks, in order |
| `AudioCapture.CaptureSession.StopTracks` | src/hooks/useAudioCapture.ts:163 | the loop stops each of the stream's tracks, in order |
| `AudioCapture.CaptureSession.StartCapture` | src/hooks/useAudioCapture.ts:26-150 | the new slots are `AfterStart` of the old, the calls issued are `StartCalls`, and the alert is `StartAlert` |
| `AudioCapture.CaptureSession.Acquire` | src/hooks/useAudioCapture.ts:36-53 | steps 2 to 4: peer connection, microphone, system stream, each set as soon as it succeeds |
| `AudioCapture.CaptureSession.Negotiate` | src/hooks/useAudioCapture.ts:55-145 | steps 5 to 9: tracks added, channel set, offer posted with the bearer key, combined stream set only if every later step succeeds |
| `AudioCapture.CaptureSession.StopCapture` | src/hooks/useAudioCapture.ts:153-172 | all five slots are cleared, and the calls issued are `Teardown` of the old slots |
| `TranscriptionPage.StreamPanels` | src/pages/Transcripcion.tsx:54-71 | a panel is rendered exactly for each stream slot that is set, in mic, system, combined order |
| `TranscriptionPage.EmptyIdChoosesDefaultMic` | src/hooks/useAudioCapture.ts:41-44 | choosing a listed device with an empty id makes the start request the default microphone |
| `TranscriptionPage.TranscriptionPage.constructor` | src/pages/Transcripcion.tsx:28-30 | the transcript starts empty, no device is selected, not recording, and the hook is idle |
| `TranscriptionPage.TranscriptionPage.SelectDevice` | src/pages/Transcripcion.tsx:29 | the selector's setter stores the given id as the selection |
| `TranscriptionPage.TranscriptionPage.Receive` | src/pages/Transcripcion.tsx:32-35 | the transcript changes only by the updater, and every entry keeps a named speaker |
| `TranscriptionPage.TranscriptionPage.Press` | src/pages/Transcripcion.tsx:37-44 | a press while recording stops and one while not recording starts; either way the flag is negated (even when the start fails), so two presses restore it; transcript and selection are untouched |
| `TranscriptionPage.TranscriptionPage.Render` | src/pages/Transcripcion.tsx:20-22 | with no user only the loading view is produced; otherwise the flag, the stream panels and the transcript rows |
| `TranscriptionPage.TranscriptionPage.RowsNameTheirSpeaker` | src/pages/Transcripcion.tsx:72 | every rendered row shows its entry's own speaker |
| `LoginPage.LoginForm.constructor` | src/pages/Login.tsx:15-20 | empty fields, no error, login tab, modal closed |
| `LoginPage.LoginForm.EditEmail` | src/pages/Login.tsx:113 | the field takes the typed value |
| `LoginPage.LoginForm.EditPassword` | src/pages/Login.tsx:123 | the field takes the typed value |
| `LoginPage.LoginForm.EditConfirmPassword` | src/pages/Login.tsx:179 | the field takes the typed value |
| `LoginPage.LoginForm.ChangeTab` | src/pages/Login.tsx:24-28 | a new tab clears error, password and confirmation and keeps the email; the same tab changes nothing |
| `LoginPage.LoginForm.EmailLogin` | src/pages/Login.tsx:30-44 | one sign-in request with the form's email and password; on failure the error is the returned message and there is no navigation; on success the error is cleared and the route is '/transcripcion' |
| `LoginPage.LoginForm.EmailSignup` | src/pages/Login.tsx:46-66 | differing passwords set 'Las contraseñas no coinciden.' with no request; otherwise one sign-up request, then the returned message, or the alert and '/login' |
| `LoginPage.LoginForm.GoogleLogin` | src/pages/Login.tsx:68-83 | one OAuth request redirecting to the origin plus '/transcripcion'; an error is shown and an earlier one is not cleared |
| `LoginPage.LoginForm.FacebookLogin` | src/pages/Login.tsx:85-87 | the modal opens, with no auth request |
| `LoginPage.LoginForm.CloseModal` | src/pages/Login.tsx:207 | the modal closes |
| `LoginPage.LoginForm.ShownError` | src/pages/Login.tsx:97 | the error is shown exactly when it is set and non-empty |

## Left out

- Browser and network APIs are not modelled. These are `fetch`,
  `RTCPeerConnection`, the SDP offer/answer, `getUserMedia`,
  `getDisplayMedia` and `enumerateDevices`. They appear only as opaque
  handles and as success/failure inputs (`StartInputs`). The offer and answer
  SDP texts are not modelled.
- The local `AudioContext` mix (useAudioCapture.ts:138-145) is one input: its
  destination stream, or the error it threw.
- Remote TTS playback (`pc.ontrack`), the `onopen` log and all
  `console` logging are left out: they have no effect on state.
- `addTrack` and `createDataChannel` are taken to succeed. A throw from them
  would end the start like any other step.
- Async scheduling and React state/closure semantics are not modelled. A
  start runs as one sequence of steps and a stop runs synchronously. The
  model does not capture that `stopCapture` reads stream state from the
  render it was created in, or that messages can arrive between start steps.
  A message may arrive on a channel after its slot was overwritten; the model
  applies every message it is given.
- `Date.now()` is the `now` parameter and `JSON.parse` is the
  `parsed: Option<Message>` input. The message fields are modelled as strings and
  integers. Non-string `text`/`speaker` values, non-integer or NaN
  timestamps, and a `null` result of `JSON.parse` are left out; the last of
  these throws in the code and is caught like a parse failure.
- Transcript.NewEntry: a JSON number is modelled as an integer, so
  fractional timestamps are left out.
- The exact alert message of platform errors is the input's message; the
  browser's error texts are not modelled.
- Router wiring, `ProtectedRoute`, the auth hook (only "user is null" is
  kept), the registration page, the home page, the header, the start button
  and the audio visualizer are static or thin wrappers and are not modelled.
- The Login form's intermediate state while awaiting the auth service is not
  modelled. During that wait the error is cleared. The model keeps only the
  final state of each handler.
