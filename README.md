# MirrorAI client core, modelled in Dafny

MirrorAI is a browser client for therapy sessions. A patient keeps a journal, fills in a
pre-session check-in and joins a live video session. A therapist manages patients and
appointments, uploads recorded sessions and reads the AI analysis of each session. This project
models the client's core logic and proves properties of it:

- **The live room** (`components/VideoRoom.tsx`, module `VideoSession`). It covers:
  - local media tracks and the mute toggles;
  - the relay socket's events;
  - a single-shot SDP offer/answer exchange, the offer/answer model of RFC 3264. No ICE
    candidates are ever sent.
  - the recorder: its chunk buffer, the `video/webm` recording built from the chunks, and the
    hand-off of the analysis result;
  - the unmount cleanup.

  The room's state is a value, `RoomState`, with one step function per handler. The class
  `VideoRoom` has the component's state variables and refs as fields. Each of its methods is
  proved to perform exactly its step. Properties of whole event sequences are lemmas about
  `Run`.
- **The analysis upload** (`services/api.ts`, module `AnalysisApi`). It covers:
  - the two global `replace` calls that strip the code fence;
  - the choice between an `analysis` string and a direct object;
  - the fixed fallback result that every failure resolves to.

  `JSON.parse` is a partial function passed in as a parameter. The HTTP outcome is a datatype.
  A decoded body, and what `JSON.parse` returns, is a JSON value of any shape. Neither is
  checked to be an analysis result, so the upload may resolve to a value that is not one.
- **Record keeping and navigation.** These are the shell `App.tsx` (module `AppShell`, class
  `App`), `components/TherapistDashboard.tsx`, `components/PatientProfile.tsx` and
  `components/PatientDashboard.tsx`. They include:
  - replace by id, append and prepend;
  - guarded inserts and form handlers with defaults;
  - the view and role dispatch.

  Each component's `useState` variables are fields of a class. Its handlers are methods that
  state the whole new state. The handlers of `App` also keep an invariant: a selected patient
  exists, and every note is a journal entry or a check-in.
- **The records** (`types.ts`, module `Types`). Each string union becomes an enumeration with its
  exact wire names.
- **The end of a live session** (module `LiveFlow`). It covers the room calling the shell's
  `onAnalysisComplete`, as written and as intended.

Shared modules:

- `Collections` holds the array idioms `map`-replace, `filter` and `find`.
- `Text` holds JavaScript's `trim`, number printing and line splitting.
- `Wrappers` holds `Option`.

The model follows the code wherever the design of the system says more than the code does. The
design describes:

- a call state machine with `Ended` and `Error` states;
- surfaced device and negotiation failures;
- time-outs on negotiation.

The code has none of these:

- `callEnded` is never set.
- A device failure is only logged.
- A second dial silently replaces the first connection.

The model states these behaviours as lemmas: `CallNeverEnds`, `MountedState` and
`DialTwiceReplacesConnection`.

## Model

| member | source | states |
|---|---|---|
| Types.ParseRole | types.ts:2-5 | exactly the strings "PATIENT" and "THERAPIST" are roles, and a parsed role prints back as the same string |
| Types.ParseStatus | types.ts:11 | exactly "Active", "On Hold" and "Inactive" are statuses, and they print back unchanged |
| Types.ParseRisk | types.ts:12 | exactly "Low", "Medium" and "High" are risk levels, and they print back unchanged |
| Types.ParseNoteType | types.ts:25 | exactly "Journal", "Session Note" and "Questionnaire" are note types, and they print back unchanged |
| Types.ParseAppointmentType | types.ts:34 | exactly "Video" and "In-Person" are appointment types, and they print back unchanged |
| Types.ParseAppointmentStatus | types.ts:35 | exactly "Upcoming", "Completed" and "Cancelled" are appointment statuses, and they print back unchanged |
| Types.NamesParseBack | types.ts:2-36 | every enumeration value's wire name parses back to that value, so the names are distinct |
| Collections.ReplaceWhere | App.tsx:131 | `map` with a replacing branch keeps the length, puts the new value at every matching index and leaves every other index unchanged |
| Collections.ReplaceWhereNoMatch | App.tsx:131 | when no entry matches, the replacing `map` returns the list unchanged |
| Collections.UpdateWhere | App.tsx:119 | `map` with a spreading branch keeps the length, transforms exactly the matching entries and leaves the rest unchanged |
| Collections.Filter | App.tsx:210 | `filter` keeps exactly the elements satisfying the predicate and never grows the list |
| Collections.FilterAppend | components/TherapistDashboard.tsx:97 | filtering a concatenation is the concatenation of the filtered parts, so order is kept |
| Collections.FilterKeepsAll | components/PatientDashboard.tsx:135 | a filter that every element passes returns the list itself |
| Collections.Find | App.tsx:153 | `find` returns None exactly when nothing matches; otherwise it returns the first matching element of the list |
| Text.TrimStart | components/PatientDashboard.tsx:26 | the result is a suffix of the input that does not start with whitespace, and everything removed is whitespace |
| Text.TrimEnd | components/PatientDashboard.tsx:26 | the result is a prefix of the input that does not end with whitespace, and everything removed is whitespace |
| Text.TrimEmptyIff | components/PatientDashboard.tsx:26 | `trim()` gives the empty string exactly when every character is ECMAScript whitespace |
| Text.DecimalString | App.tsx:103 | `${n}` for a natural number is a non-empty string of decimal digits with no leading zero |
| Text.DecimalRoundTrip | App.tsx:103 | reading the printed digits back gives the number |
| Text.LinesOfOneLine | App.tsx:103 | a text without a line break is displayed as a single line |
| Text.LinesAfterBreak | App.tsx:103 | a line break splits a text into the line before it and the lines after it |
| AnalysisApi.RemoveAll | services/api.ts:24 | a global `replace` with the empty string never lengthens the text |
| AnalysisApi.JoinPieces | services/api.ts:24 | splitting at the matches of a left-to-right scan and joining with the token again gives back the text |
| AnalysisApi.RemoveAllIsConcatOfPieces | services/api.ts:24 | the global replace deletes exactly the matches and keeps the pieces between them |
| AnalysisApi.FirstPieceIsPrefix | services/api.ts:24 | the text before the first match is a prefix of the input, so the scan never reorders characters |
| AnalysisApi.PiecesAreTokenFree | services/api.ts:24 | no piece left between matches contains the token, so one pass removes every match it meets |
| AnalysisApi.RemoveAllNoMatch | services/api.ts:24 | a text with no match is returned unchanged by the replace |
| AnalysisApi.RemoveAllLeading | services/api.ts:24 | a leading token is deleted and the scan continues after it |
| AnalysisApi.RemoveAllKeepsPrefix | services/api.ts:24 | a prefix where no match starts passes through the replace unchanged |
| AnalysisApi.StripNoTokens | services/api.ts:24 | a string containing neither fence token is returned unchanged by the strip |
| AnalysisApi.NoOpenerBeforeCloser | services/api.ts:24 | appending the closing fence creates no opening fence unless the text ends in "```json" |
| AnalysisApi.NoCloserStraddles | services/api.ts:24 | no closing-fence match starts inside a closer-free text followed by the closer |
| AnalysisApi.RemoveTrailingCloser | services/api.ts:24 | the closer pass turns a closer-free text followed by the closer back into the text |
| AnalysisApi.StripFenced | services/api.ts:22-25 | "```json\n" + s + "\n```" strips back to s when s holds neither token and does not end in "```json" |
| AnalysisApi.FencedJsonTagCounterexample | services/api.ts:24 | without the last condition the round trip fails: fencing "```json" strips to "```" |
| AnalysisApi.BareFenceHasNoOpener | services/api.ts:24 | a text wrapped in a bare "```\n" fence contains no exact lower-case opener |
| AnalysisApi.NoCloserInBareFence | services/api.ts:24 | no closing-fence match starts inside the bare opener |
| AnalysisApi.StripKeepsBareFence | services/api.ts:24 | only the exact opener is removed: a bare "```\n" fence survives stripping and only the closer goes |
| AnalysisApi.FallbackShape | services/api.ts:33-60 | the fallback has sentiment "Positive", a non-empty summary, 2 verbal cues, 2 non-verbal cues, 3 emotion points and rapport "High" |
| AnalysisApi.NetworkFailureFallsBack | services/api.ts:10-14 | a request that never reaches the server resolves to the fallback instead of rejecting |
| AnalysisApi.MissingBodyFallsBack | services/api.ts:20 | an OK response whose body cannot be read resolves to the fallback |
| AnalysisApi.NotOkFallsBack | services/api.ts:16-18 | a non-OK status resolves to the fallback, whatever the body |
| AnalysisApi.DecodedPassesThrough | services/api.ts:22-27 | when the body decodes, the upload resolves to exactly the decoded result |
| AnalysisApi.UndecodedFallsBack | services/api.ts:28-62 | every failure inside the `try` (network, status, body, parse) resolves to the fallback |
| AnalysisApi.DirectObjectPassesThrough | services/api.ts:23-27 | a non-null body without an `analysis` string is returned as it is, whatever its shape, so a value that is not an analysis result reaches the caller |
| AnalysisApi.NullBodyFallsBack | services/api.ts:20-23 | a `null` body makes reading `analysis` throw, so the upload resolves to the fallback |
| AnalysisApi.NonResultComesFromServer | services/api.ts:20-32 | a resolved value that is not an analysis result comes from an OK response: either the body itself or the parse of its stripped `analysis` string; the fallback never is one |
| AnalysisApi.FencedAnalysisDecodes | services/api.ts:23-25 | a fenced `analysis` string resolves to the parse of the text inside the fence, or to the fallback when that parse fails |
| VideoSession.MountedState | components/VideoRoom.tsx:14-73 | after mounting, mic and camera are on, no call flag is set, `me` is empty, nothing records, and a failed device request leaves neither a stream nor a socket |
| VideoSession.ApplyKeepsValid | components/VideoRoom.tsx:14-36 | every handler keeps the room invariant: track flags match the UI, an incoming call has its signal, a recording has a capturing recorder, a socket exists exactly with a stream |
| VideoSession.RecorderStopKeepsValid | components/VideoRoom.tsx:182-191 | the recorder's `onstop` keeps the room invariant |
| VideoSession.RunKeepsValid | components/VideoRoom.tsx:14-36 | any sequence of handler invocations keeps the room invariant |
| VideoSession.CallNeverEnds | components/VideoRoom.tsx:24 | `callEnded` is never set: after mounting, no sequence of events ends the call |
| VideoSession.IncomingCallIsOnlyRecorded | components/VideoRoom.tsx:57-61 | an inbound `callUser` records the caller and the signal without answering, sending or connecting |
| VideoSession.DialSendsOneOffer | components/VideoRoom.tsx:82-118 | dialling sends exactly one `callUser` message with the target, the offer, `me` and the name "User", and sets no call flag |
| VideoSession.DialTwiceReplacesConnection | components/VideoRoom.tsx:82-87 | a second dial replaces the first connection, which is never closed, and both offers are sent |
| VideoSession.AnswerAppliesCallerSignal | components/VideoRoom.tsx:121-142 | answering accepts the call, applies the stored caller signal as the remote description and sends the answer to the caller |
| VideoSession.AcceptedSetsRemote | components/VideoRoom.tsx:63-66 | an inbound `callAccepted` sets the flag and gives the answer to an existing connection only |
| VideoSession.ToggleMicFlipsTogether | components/VideoRoom.tsx:145-153 | the mic toggle flips the flag and the track together when the track exists, otherwise changes nothing, never touches the connection, and toggling twice restores the room |
| VideoSession.ToggleCameraFlipsTogether | components/VideoRoom.tsx:155-163 | the same for the camera toggle |
| VideoSession.FlattenSize | components/VideoRoom.tsx:183 | the recording's size is the sum of the chunk sizes |
| VideoSession.FlattenAppend | components/VideoRoom.tsx:183 | the bytes of two runs of chunks are the two byte runs in order |
| VideoSession.FeedKeepsNonEmptyInOrder | components/VideoRoom.tsx:170-172 | `dataavailable` payloads append exactly the non-empty ones in arrival order and change nothing else |
| VideoSession.DataEventsFeed | components/VideoRoom.tsx:170-172 | while a recorder is live, a run of data events is exactly a feed of their payloads |
| VideoSession.RecordingRun | components/VideoRoom.tsx:165-194 | a recording session is the composition of its start, feed, stop and `onstop` steps |
| VideoSession.RecordingRoundTrip | components/VideoRoom.tsx:165-191 | a whole recording gives the non-empty chunks concatenated in order and typed `video/webm`, with size equal to the sum of their sizes; the result is handed over once; `analyzing` stays true unless the callback threw |
| VideoSession.OnlyCallbackFailureClearsAnalyzing | components/VideoRoom.tsx:188-191 | no event clears `analyzing` except an `onstop` whose callback throws |
| VideoSession.CleanupAsWrittenLeavesTracksLive | components/VideoRoom.tsx:75-80 | the cleanup as written disconnects the socket and leaves the stream and its tracks as they were |
| VideoSession.CleanupAsWrittenCounterexample | components/VideoRoom.tsx:76 | after mounting with both devices and unmounting, the microphone track is still live |
| VideoSession.CleanupReleasesDevices | components/VideoRoom.tsx:75-80 | the intended cleanup stops every track, disconnects the socket and closes the connection |
| VideoSession.VideoRoom.constructor | components/VideoRoom.tsx:39-73 | mounting with the devices' outcome produces the mounted state and the invariant |
| VideoSession.VideoRoom.OnConnect | components/VideoRoom.tsx:51-53 | the connect event sets `socketConnected` and nothing else |
| VideoSession.VideoRoom.OnMe | components/VideoRoom.tsx:55 | the relay's id overwrites `me` |
| VideoSession.VideoRoom.OnCallUser | components/VideoRoom.tsx:57-61 | an inbound call sets `receivingCall`, `caller` and `callerSignal` |
| VideoSession.VideoRoom.OnCallAccepted | components/VideoRoom.tsx:63-66 | acceptance sets the flag and the existing connection's remote description |
| VideoSession.VideoRoom.EditIdToCall | components/VideoRoom.tsx:240 | the id field takes the typed text |
| VideoSession.VideoRoom.CallUser | components/VideoRoom.tsx:82-119 | a new connection with the local tracks and the offer replaces the old one, and the offer is emitted |
| VideoSession.VideoRoom.AnswerCall | components/VideoRoom.tsx:121-143 | performs the answer step, keeping the invariant |
| VideoSession.VideoRoom.ToggleMic | components/VideoRoom.tsx:145-153 | performs the mic toggle step in place, keeping the invariant |
| VideoSession.VideoRoom.ToggleCamera | components/VideoRoom.tsx:155-163 | performs the camera toggle step in place, keeping the invariant |
| VideoSession.VideoRoom.StartRecording | components/VideoRoom.tsx:165-176 | without a stream nothing changes; otherwise a capturing recorder, an empty buffer, `recording` set and no recording kept |
| VideoSession.VideoRoom.OnDataAvailable | components/VideoRoom.tsx:170-172 | a non-empty payload is pushed at the end of the buffer; an empty one is dropped |
| VideoSession.VideoRoom.StopRecordingAndAnalyze | components/VideoRoom.tsx:178-194 | without a recorder nothing changes; otherwise `recording` false, `analyzing` true and a capturing recorder asked to stop |
| VideoSession.VideoRoom.RecorderStopped | components/VideoRoom.tsx:182-191 | `onstop` keeps the recording built from the buffer, hands over the result, and clears `analyzing` only if the callback threw |
| VideoSession.VideoRoom.Unmount | components/VideoRoom.tsx:75-80 | the cleanup as written, performed in place: the socket is disconnected and the connection closed, no track is stopped, and the room invariant still holds |
| VideoSession.VideoRoom.UnmountIntended | components/VideoRoom.tsx:75-80 | the intended cleanup, performed in place: every track of the current stream is stopped as well, and the room invariant still holds |
| AppShell.FindPatientIffKnown | App.tsx:153-154 | the lookup by id succeeds exactly when some patient has that id, and it finds the first patient with that id |
| AppShell.ReplacePatient | App.tsx:130-132 | the update keeps the length, replaces exactly the entries with the updated patient's id and leaves all others unchanged |
| AppShell.ReplaceSession | App.tsx:148 | the same by session id |
| AppShell.ReplacePatientKeepsKnown | App.tsx:131 | replacing by id keeps every known id known |
| AppShell.RenameDemoPatient | App.tsx:119 | only patient "1" gets the form's name and nickname; every other patient is unchanged |
| AppShell.RenamedPatientFound | App.tsx:116-122 | after the profile is saved, the lookup of patient "1" that the navigation bar shows finds the form's name and nickname |
| AppShell.QuestionnaireSummaryLines | App.tsx:103 | a check-in note reads as exactly four lines, one per answer, when the sleep band and topics hold no line break |
| AppShell.Schedule | App.tsx:152-166 | an unknown patient changes nothing; otherwise one Video, Upcoming appointment under the patient's name is appended and only that patient's next-session label changes |
| AppShell.ScheduleCountsToday | App.tsx:164 | scheduling a known patient for today adds exactly one to the "remaining today" count |
| AppShell.AddedPatientLookup | App.tsx:134-136 | appending without a duplicate check: the new patient is found by its id only if no earlier patient has that id; otherwise the earlier one is found |
| AppShell.First | App.tsx:242 | `xs[0]` is undefined exactly for an empty list and is the first element otherwise |
| AppShell.NotesOf | App.tsx:210 | the notes passed to a profile are exactly that patient's notes |
| AppShell.PatientJournalShowsAll | App.tsx:240 | as every note the app creates is a journal entry or a check-in, the patient's journal list hides none of them |
| AppShell.App.constructor | App.tsx:14-49 | the initial patients, note, today's appointment, no sessions, the patient role, the dashboard and the schedule tab |
| AppShell.App.CurrentScreen | App.tsx:198-244 | the session view shows the room whatever the role; there is never an analysis screen; a profile screen always has its patient and gets exactly that patient's notes; the patient dashboard gets exactly patient "1"'s notes |
| AppShell.App.HeaderName | App.tsx:188 | the therapist sees "Dr. Thompson"; when a patient with id "1" exists, the patient side shows the nickname of the first such patient; otherwise it shows nothing |
| AppShell.App.ToggleRole | App.tsx:51-55 | the whole new state: the role is set, the view returns to the dashboard and the selected patient is cleared; every other field is unchanged |
| AppShell.App.StartSession | App.tsx:57-60 | the whole new state: the view is the live room and the analysis result is cleared; every other field is unchanged |
| AppShell.App.GoToDashboard | App.tsx:62-64 | the whole new state: only the view changes, to the dashboard |
| AppShell.App.StartQuestionnaire | App.tsx:238 | the whole new state: only the view changes, to the check-in form |
| AppShell.App.SetProfileModal | App.tsx:239 | the whole new state: only the profile modal's flag changes |
| AppShell.App.EditProfileForm | App.tsx:258-262 | the whole new state: only the modal's name and nickname fields change, to the typed values |
| AppShell.App.SetTherapistTab | App.tsx:232 | the whole new state: only the lifted tab changes |
| AppShell.App.AnalysisComplete | App.tsx:66-87 | without a recording it throws and the whole state is unchanged; otherwise the live session for patient "1" is prepended, the role, tab and view switch to the therapist's session list, and every other field is unchanged |
| AppShell.App.SaveNote | App.tsx:90-100 | the whole new state: a Journal note for patient "1" is prepended; every other field is unchanged |
| AppShell.App.SaveQuestionnaire | App.tsx:102-114 | the whole new state: a Questionnaire note with the summary text is prepended and the view returns to the dashboard; every other field is unchanged |
| AppShell.App.SavePatientProfile | App.tsx:116-122 | the whole new state: patient "1" is renamed from the form only if it exists, and the modal closes either way; every other field is unchanged |
| AppShell.App.ViewPatient | App.tsx:125-128 | the whole new state: the patient is selected and the profile view opens; every other field is unchanged |
| AppShell.App.UpdatePatient | App.tsx:130-132 | the whole new state: the patient is replaced by id; every other field is unchanged |
| AppShell.App.AddPatient | App.tsx:134-136 | the whole new state: the patient is appended at the end; every other field is unchanged |
| AppShell.App.SessionCreated | App.tsx:138-140 | the whole new state: the session is prepended, so the new session is at index 0; every other field is unchanged |
| AppShell.App.ViewSession | App.tsx:142-145 | the whole new state: the session is selected and its detail view opens; every other field is unchanged |
| AppShell.App.UpdateSession | App.tsx:147-150 | the whole new state: the session is replaced by id and the updated session is selected; every other field is unchanged |
| AppShell.App.AddSession | App.tsx:152-166 | the whole new state: the patients and appointments become the result of the scheduling update; every other field is unchanged |
| LiveFlow.FinishLiveSessionAsWritten | components/VideoRoom.tsx:182-191 | with the result alone the shell's handler throws, `analyzing` is cleared, and no session is saved |
| LiveFlow.FinishLiveSession | App.tsx:66-87 | with the recording passed along, the live session with the result and the recording's URL is saved first and the therapist's session list is shown |
| TherapistDashboardView.ActiveTab | components/TherapistDashboard.tsx:30-31 | the parent's tab wins when given; otherwise the component's own tab is used |
| TherapistDashboardView.StudentName | components/TherapistDashboard.tsx:73 | the first found student's name; "Unknown" when the student is missing, and also when the found student's name is empty |
| TherapistDashboardView.RemainingToday | components/TherapistDashboard.tsx:97 | the count never exceeds the number of appointments |
| TherapistDashboardView.RemainingTodayZeroIff | components/TherapistDashboard.tsx:97 | the count is zero exactly when no appointment is Upcoming with today's ISO date |
| TherapistDashboardView.RemainingTodayAppend | components/TherapistDashboard.tsx:97 | one more appointment adds one to the count exactly when it is Upcoming today |
| TherapistDashboardView.UploadedSessionShape | components/TherapistDashboard.tsx:70-80 | an uploaded session carries the student id, the analysis, the title, empty notes on both sides, a name, and the chosen date or today's |
| TherapistDashboardView.TherapistDashboard.constructor | components/TherapistDashboard.tsx:25-42 | opens on the schedule tab with both modals closed and empty forms |
| TherapistDashboardView.TherapistDashboard.Shown | components/TherapistDashboard.tsx:30 | the tab shown is the prop when given, else the internal one |
| TherapistDashboardView.TherapistDashboard.SelectTab | components/TherapistDashboard.tsx:139 | with a parent setter the tab is forwarded and the state is unchanged; otherwise only the internal tab changes |
| TherapistDashboardView.TherapistDashboard.SetShowAddPatient | components/TherapistDashboard.tsx:180 | the whole new state: only the add-patient modal's flag changes, so its fields are kept |
| TherapistDashboardView.TherapistDashboard.SetShowUpload | components/TherapistDashboard.tsx:238 | the whole new state: only the upload modal's flag changes, so its fields are kept |
| TherapistDashboardView.TherapistDashboard.EditNewPatient | components/TherapistDashboard.tsx:34-35 | the whole new state: only the form's name and email change, to the typed values |
| TherapistDashboardView.TherapistDashboard.EditUploadForm | components/TherapistDashboard.tsx:38-41 | the whole new state: only the upload form's four fields change, to the chosen values |
| TherapistDashboardView.TherapistDashboard.AddPatientSubmit | components/TherapistDashboard.tsx:44-60 | the new patient has the form's name and email, status Active, risk Low, empty next session and phone, and the brand avatar; the modal closes, the fields clear, and nothing else changes |
| TherapistDashboardView.TherapistDashboard.BeginUpload | components/TherapistDashboard.tsx:62-66 | with no file or no student the state is unchanged and nothing is requested; otherwise the form is captured and only `isUploading` changes, to true |
| TherapistDashboardView.TherapistDashboard.FinishUpload | components/TherapistDashboard.tsx:67-89 | the session goes to the parent; the modal closes, the file and title clear, and `isUploading` is reset; the date, the student and everything else stay |
| PatientProfileView.WithRisk | components/PatientProfile.tsx:22 | the emitted patient has the new risk level and otherwise equals the patient |
| PatientProfileView.WithRiskLastWins | components/PatientProfile.tsx:20-23 | changing the risk twice keeps the last choice, and changing it back restores the patient |
| PatientProfileView.NextSessionLabel | components/PatientProfile.tsx:80 | an empty next session is shown as "Not Scheduled"; any other is shown as it is |
| PatientProfileView.PatientProfile.constructor | components/PatientProfile.tsx:15-18 | the local risk starts as the patient's, and the form is hidden and empty |
| PatientProfileView.PatientProfile.ReceiveProps | components/PatientProfile.tsx:15 | a new patient prop does not reset the local risk |
| PatientProfileView.PatientProfile.RiskChange | components/PatientProfile.tsx:20-23 | the local risk and the emitted patient agree on the new level |
| PatientProfileView.PatientProfile.ToggleSessionForm | components/PatientProfile.tsx:90 | the form's visibility flips |
| PatientProfileView.PatientProfile.EditSessionForm | components/PatientProfile.tsx:105-115 | the date and time fields take the typed values |
| PatientProfileView.PatientProfile.AddSessionSubmit | components/PatientProfile.tsx:25-33 | only with both a date and a time is scheduling requested, after which the form hides and clears; otherwise nothing changes |
| PatientDashboardView.SaveDisabledIffBlank | components/PatientDashboard.tsx:125 | the Save button is disabled exactly when the content is all whitespace, the same test as the handler's guard |
| PatientDashboardView.DraftTitle | components/PatientDashboard.tsx:27 | an empty title becomes "Untitled Entry"; any other title, blank ones included, is kept |
| PatientDashboardView.Highlighted | components/PatientDashboard.tsx:60-62 | the low face is lit iff mood is at most 3, the middle one iff 4 to 7, the high one iff at least 8 |
| PatientDashboardView.ExactlyOneFace | components/PatientDashboard.tsx:60-62 | every mood lights exactly one face |
| PatientDashboardView.FacesFollowMood | components/PatientDashboard.tsx:60-62 | a higher mood never lights a lower face |
| PatientDashboardView.JournalEntries | components/PatientDashboard.tsx:135 | the list shows exactly the Journal and Questionnaire notes |
| PatientDashboardView.EmptyMessageIgnoresFilter | components/PatientDashboard.tsx:135-149 | the list shows no entry while the empty message stays hidden exactly when there are notes and all of them are session notes |
| PatientDashboardView.PatientDashboard.constructor | components/PatientDashboard.tsx:21-23 | empty form and mood 5 |
| PatientDashboardView.PatientDashboard.EditNote | components/PatientDashboard.tsx:21-22 | the form's fields take the typed title and content |
| PatientDashboardView.PatientDashboard.SetMood | components/PatientDashboard.tsx:65-66 | the slider sets the mood |
| PatientDashboardView.PatientDashboard.SaveNote | components/PatientDashboard.tsx:25-30 | blank content saves nothing and keeps the form; otherwise the note with its default title is emitted and both fields clear |

## Left out

- Browser media, RTC and socket APIs are abstract:
  - `getUserMedia`, `RTCPeerConnection` and `MediaRecorder`;
  - the STUN server;
  - the socket.io transport;
  - the video elements' `srcObject`.

  Devices, SDP texts and recorded bytes are parameters. A stream is its first audio and first
  video track.
- The room's constructor merges mounting and the awaited device request into one step. The
  render in which the stream is still null, before the request resolves, is not modelled.
- `fetch`, `FormData`, `response.json` and `URL.createObjectURL` are I/O. The HTTP outcome, the
  decoded body and the object URL are parameters. `JSON.parse` is a partial function parameter.
- The room, the dashboards and the shell take an `AnalysisResult`. When the upload resolves to a
  value of another shape (`AnalysisApi.DirectObjectPassesThrough`), the app stores and passes it
  on unchecked; what it then renders is not modelled.
- The 2000 ms delay before the fallback resolves is not modelled. Promise interleaving and React
  state batching are not modelled either; each handler is one atomic step.
- VideoSession.VideoRoom.RecorderStopped: it receives the upload's resolved result as a
  parameter instead of computing it. `AnalysisApi.UploadVideoForAnalysis` and its lemmas state
  which results the upload resolves to.
- Two recorders started before the first one stops are not modelled.
- Clock- and locale-derived values are parameters:
  - `Date.now()` ids;
  - `toLocaleDateString`, `toLocaleTimeString` and weekday names;
  - `toISOString` dates.
- `confidence` values are opaque, because they are floating point.
- `downloadRecording` is left out as DOM I/O.
- `components/AnalysisDisplay.tsx`, `components/SessionDetail.tsx` and
  `components/Questionnaire.tsx` are not part of this model. The session update that
  `SessionDetail` sends is `AppShell.App.UpdateSession`.
- The homework list of the patient dashboard is never updated, so it is left out. So is the
  `Homework` record (types.ts:38-42).
- The `catch` of the therapist's upload (components/TherapistDashboard.tsx:85-86) is not
  modelled. The upload never rejects, so that branch cannot run.
- The analysis view of `App` is not modelled as reachable. Nothing ever sets `analysisResult` or
  the `analysis` view, and `App.Valid` states this.
- Stale closures are not modelled. Every handler sees the latest state.

## Findings

| source | as written | input that shows it | evidently intended | confidence | as-written member | corrected member |
|---|---|---|---|---|---|---|
| components/VideoRoom.tsx:76 | the unmount cleanup reads `stream` from the first render, which is null because the effect runs once, so no device track is ever stopped | mount with camera and microphone granted, then unmount: the microphone track stays live | unmounting stops every track of the current stream | not executed | VideoSession.CleanupAsWrittenCounterexample | VideoSession.CleanupReleasesDevices |
| components/VideoRoom.tsx:187 | `onAnalysisComplete(result)` passes no recording, but the handler wired in at App.tsx:200 builds `URL.createObjectURL(videoBlob)` (App.tsx:75), which throws; the room's `catch` clears `analyzing` and no session is saved | any finished live recording whose upload resolves (always, given the fallback) | the recording is passed along and the live session is saved | not executed | LiveFlow.FinishLiveSessionAsWritten | LiveFlow.FinishLiveSession |

The class performs the cleanup as written in `VideoSession.VideoRoom.Unmount`. The corrected
cleanup, `VideoSession.CleanupStep`, is performed in place by
`VideoSession.VideoRoom.UnmountIntended`.
