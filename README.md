# Voice interview client: a Dafny model

This project models the client side of a browser voice-interview screen. A
web page asks a backend for an interview session, joins a LiveKit media room
with the session's participant token, plays the AI interviewer's remote audio
tracks, and keeps a conversation history. The history is fed by two sources:
the agent's data messages and the speech-recognition transcript. Four source
files make up the model:

- `src/components/VoiceInterviewScreen.tsx`, the session state machine:
  - how data messages and the transcript extend the history;
  - which entry the question panel shows;
  - how the connection status follows the room;
  - the connect-once guard;
  - the start, end and microphone handlers.
- `src/components/VoiceInterview/hooks/useAudioManager.ts`:
  - the registry from track key to playback element, and its reconciliation
    against the current track list;
  - the bounded `play()` retry;
  - the speaking-flag callbacks;
  - the speech-synthesis fallback and its voice choice;
  - the unmount clean-up.
- `src/components/VoiceInterview/utils.ts`:
  - `formatTime`;
  - the two connection-status switches;
  - the camelCase key rewriter.
- `src/components/VoiceInterview/hooks/useVoiceInterviewState.ts`: the
  initial value of every state cell.

Modules, one concept each:

| file | module | contents |
|---|---|---|
| `strings.dfy` | `Strings` | decimal numerals, JavaScript whitespace and `trim`, ASCII case, substring search |
| `types.dfy` | `Types` | the entities of `types.ts`, the constants of `constants.ts`, and the shapes in which an awaited call's outcome enters the model |
| `utils.dfy` | `Utils` | the helpers of `utils.ts` |
| `session_state.dfy` | `SessionState` | class `InterviewState`, one mutable field per `useState` cell |
| `environment.dfy` | `Environment` | stand-ins for the speech-recognition hook and a log of calls to the room, the backend and the parent |
| `audio_manager.dfy` | `Audio` | class `AudioManager` and the functions that specify it |
| `interview_screen.dfy` | `InterviewScreen` | the history functions, and class `Screen` with one method per handler or effect |

Every handler that works by calling setters in sequence is a method of a
class. Its `modifies` clause names exactly the cells it may change, and its
`ensures` clauses give the new value of each one, call logs included.

The code calls out to collaborators the model does not contain: the backend,
the room, `play()` and `AudioContext.resume()`. The model does not call them.
Each call instead becomes an input saying how the call ended (`Outcome`,
`Resume`, `StartReply`, a `seq<bool>` of `play()` results), or an entry in a
call log.

A `setTimeout` callback is modelled as a separate method; the retry timer of `playWithRetry` is `FireRetry`, and the end of its `await` is a step of its own, `SettlePlay`. Such a method is
either guarded by a pending flag the scheduling code sets, or takes the flags
its closure captured as parameters.

Clock readings (`Date.now()`) are parameters.

The session invariant `InterviewScreen.Screen.Valid` ties these flags together:

- `livekitReady`;
- the pending connect timer;
- the starting modal (`isThinking`);
- the number of room connects made for the current session.

The invariant says that each session is connected at most once, and that the
starting modal is up exactly while a connect is pending or about to be
scheduled. The handlers whose contracts carry `old(Valid()) ==> Valid()` are
the ones the invariant survives.

One case breaks it. After a failed connect, the start handler as written
stores a second session, but that session can never connect. The corrected
start keeps the invariant; see "## Findings".

## Model

| member | source | states |
|---|---|---|
| Strings.Trim | src/components/VoiceInterviewScreen.tsx:280 | `String.prototype.trim()`: drops leading and trailing JavaScript whitespace; also used by the question fallback at line 478. What it yields is stated by `Strings.TrimEmptyIffBlank` |
| Strings.Contains | src/components/VoiceInterview/hooks/useAudioManager.ts:184-187 | `String.prototype.includes`: some position of the text starts with the pattern |
| Strings.IntToString | src/components/VoiceInterview/utils.ts:6 | the decimal numeral of an integer, with a minus sign when negative; `Strings.DecimalRoundTrip` reads it back |
| Strings.DecimalRoundTrip | src/components/VoiceInterview/utils.ts:6 | the decimal numeral the template literal writes for a non-negative integer reads back as that integer |
| Strings.NatToDecimalInjective | src/components/VoiceInterview/hooks/useAudioManager.ts:97 | two indexes with the same numeral are equal, so `track-<index>` keys of different positions differ |
| Strings.PadStart | src/components/VoiceInterview/utils.ts:6 | `padStart` yields `max(len, width)` characters: the fill characters first, then the original string intact |
| Strings.TrimEmptyIffBlank | src/components/VoiceInterviewScreen.tsx:280 | `trim()` is empty exactly when every character is JavaScript whitespace; the transcript test here and the question fallback of the panel (line 478) both rest on it |
| Strings.LowerAscii | src/components/VoiceInterview/hooks/useAudioManager.ts:184-187 | `toLowerCase()` keeps the length and lowers each character |
| Types.ParseStatus | src/components/VoiceInterview/types.ts:1 | a status string names at most one of the four statuses, and the one it names renders back as that string |
| Types.StatusName | src/components/VoiceInterview/constants.ts:3-8 | the `CONNECTION_STATUS` string of each status |
| Types.StatusNameRoundTrip | src/components/VoiceInterview/constants.ts:3-8 | each of the four statuses parses back from its `CONNECTION_STATUS` string |
| Utils.JsRemainder | src/components/VoiceInterview/utils.ts:5 | JavaScript `%` for a positive divisor: `a` is `b` times the quotient truncated toward zero plus the result, and the result lies in [0, b) for a non-negative dividend and in (-b, 0] for a negative one, which together fix it |
| Utils.ClockFields | src/components/VoiceInterview/utils.ts:3-5 | for `ms >= 0`: minutes is `ms div 60000`; seconds is `(ms mod 60000) div 1000` and lies in 0..59; `minutes*60000 + seconds*1000 <= ms < that + 1000` |
| Utils.Minutes | src/components/VoiceInterview/utils.ts:4 | `Math.floor(ms / 60000)`, the floor quotient also for negative durations |
| Utils.Seconds | src/components/VoiceInterview/utils.ts:5 | `Math.floor((ms % 60000) / 1000)`, taking the JavaScript remainder (`Utils.JsRemainder`) |
| Utils.Truthy | src/components/VoiceInterview/utils.ts:37 | JavaScript truthiness of the session value: false for `null`, `undefined`, `false`, `0` and `""`, true for every object |
| Utils.IsObjectType | src/components/VoiceInterview/utils.ts:37 | `typeof v === 'object'`: objects, arrays and `null` |
| Utils.Get | src/components/VoiceInterview/utils.ts:44 | reading `obj[key]`: the value of the first property with that key, none when absent |
| Utils.SetProp | src/components/VoiceInterview/utils.ts:44 | assigning `result[key]`: an existing key keeps its position and takes the new value, a new key is appended |
| Utils.FormatTime | src/components/VoiceInterview/utils.ts:3-7 | `m:ss` text of a duration; what it renders is stated by the `FormatTime…` lemmas below |
| Utils.PaddedTwoDigits | src/components/VoiceInterview/utils.ts:6 | seconds below 100 render as exactly two digits, tens then units, zero-padded |
| Utils.FormatTimeShape | src/components/VoiceInterview/utils.ts:3-6 | the output is the minutes numeral, a colon, then the two digits of the seconds |
| Utils.FormatTimeParses | src/components/VoiceInterview/utils.ts:3-6 | reading the `m:ss` output back gives the minutes and the seconds of the duration |
| Utils.FormatTimeSameSecond | src/components/VoiceInterview/utils.ts:3-6 | two non-negative durations display alike if and only if they have the same whole number of seconds |
| Utils.ConnectionStatusColor | src/components/VoiceInterview/utils.ts:9-20 | total over every string; the result is one of the four classes; gray exactly when the string is not connected, connecting or error |
| Utils.ConnectionStatusText | src/components/VoiceInterview/utils.ts:22-33 | total over every string; the result is one of the four labels; "Disconnected" exactly when the string is not connected, connecting or error |
| Utils.ColorAndTextAgree | src/components/VoiceInterview/utils.ts:9-33 | two strings get the same colour if and only if they get the same label |
| Utils.StatusRendering | src/components/VoiceInterview/utils.ts:9-33 | the label and colour of each of the four statuses (disconnected is gray) |
| Utils.ToCamel | src/components/VoiceInterview/utils.ts:38-41 | the rewrite never lengthens a key, maps only the empty key to the empty key, and starts with the key's first character or an upper-case letter |
| Utils.ToCamelLeavesNoGroup | src/components/VoiceInterview/utils.ts:38-41 | the rewritten key contains no `-` or `_` followed by a lower-case letter |
| Utils.ToCamelIdentity | src/components/VoiceInterview/utils.ts:38-41 | a key with no `[-_][a-z]` group is kept character for character |
| Utils.ToCamelShrinks | src/components/VoiceInterview/utils.ts:38-41 | a key with a group gets strictly shorter |
| Utils.ToCamelFixedIff | src/components/VoiceInterview/utils.ts:38-41 | the rewrite leaves a key unchanged if and only if it has no group |
| Utils.ToCamelIdempotent | src/components/VoiceInterview/utils.ts:38-41 | rewriting twice equals rewriting once |
| Utils.GetAfterSet | src/components/VoiceInterview/utils.ts:44 | after `result[key] = v`, reading `key` gives `v` and every other property is unchanged |
| Utils.CamelCaseSession | src/components/VoiceInterview/utils.ts:36-47 | falsy and non-object inputs come back unchanged; for an object, each rewritten key holds the value of the last original key that rewrites to it |
| Utils.LastRenamed | src/components/VoiceInterview/utils.ts:43-45 | the value the copy loop leaves under a rewritten key: that of the last original key that rewrites to it, if any; its properties are the two lemmas below |
| Utils.LastRenamedDefined | src/components/VoiceInterview/utils.ts:43-45 | a rewritten key is present if and only if some original key rewrites to it |
| Utils.GetFindsEach | src/components/VoiceInterview/utils.ts:44 | in a property list with distinct keys, as every JavaScript object has, reading a key gives its property's value |
| Utils.RenamedReadsAsOriginal | src/components/VoiceInterview/utils.ts:43-45 | when no two keys rewrite alike, reading the copy under a rewritten key gives what reading the original under the original key gives |
| Utils.LastRenamedKeepsValue | src/components/VoiceInterview/utils.ts:43-45 | when no two keys rewrite alike, every value is copied unchanged under its rewritten key |
| SessionState.InterviewState.constructor | src/components/VoiceInterview/hooks/useVoiceInterviewState.ts:31-50 | every cell starts at its `useState` value; the participant name is `participant-` followed by the clock reading |
| Audio.TrackKey | src/components/VoiceInterview/hooks/useAudioManager.ts:97 | the `sid`, or `track-<index>` when it is empty: the key is never empty, and a track without a `sid` gets a `track-` key; the same rule is used for binding and for clean-up |
| Audio.CurrentKeys | src/components/VoiceInterview/hooks/useAudioManager.ts:145 | the key set of the current list contains the key of every track, and never the empty key |
| Audio.FallbackKeysDistinct | src/components/VoiceInterview/hooks/useAudioManager.ts:97 | two tracks without a `sid` at different positions get different keys |
| Audio.AttachedAreCurrent | src/components/VoiceInterview/hooks/useAudioManager.ts:97-145 | every key the binding loop registers is a key of the current list, because binding and clean-up use the same key rule |
| Audio.BindSkips | src/components/VoiceInterview/hooks/useAudioManager.ts:99-139 | a key already bound, or a track whose attach throws, registers nothing, and the loop goes on |
| Audio.BindAdds | src/components/VoiceInterview/hooks/useAudioManager.ts:99-136 | a new key whose attach succeeds is bound to a fresh element, and the registry stays injective |
| Audio.PlayAccountAdd | src/components/VoiceInterview/hooks/useAudioManager.ts:135-136 | binding a fresh element adds exactly that element to the played ones and gives it a pending `play()` with the default budget |
| Audio.RegistryCreate | src/components/VoiceInterview/hooks/useAudioManager.ts:100-135 | binding a fresh element under an unbound key keeps each key mapped to a distinct, live element |
| Audio.RegistryKeep | src/components/VoiceInterview/hooks/useAudioManager.ts:146-152 | deleting every binding outside the current keys, and tearing down its element, keeps the registry well formed |
| Audio.CleanupStep | src/components/VoiceInterview/hooks/useAudioManager.ts:146-152 | one visited key: a stale key is deleted and its element torn down; a current key is kept |
| Audio.BindThenClean | src/components/VoiceInterview/hooks/useAudioManager.ts:92-152 | cleaning up after binding only current keys drops exactly the stale bindings that existed before the pass; when the pass changes no key it changes no binding |
| Audio.ReconcileIdempotent | src/components/VoiceInterview/hooks/useAudioManager.ts:92-152 | a second pass over the same tracks, with the same attach outcomes, binds and unbinds nothing |
| Audio.AudioManager.constructor | src/components/VoiceInterview/hooks/useAudioManager.ts:21-42 | an empty registry, no pending `play()` and no scheduled retry; the context is open exactly when its constructor returned; the synthesis engine is kept only when the browser has one and the context was created, since a throw reaches the `catch` before the engine is stored |
| Audio.AudioManager.Reconcile | src/components/VoiceInterview/hooks/useAudioManager.ts:92-153 | after a pass the keys are the old keys plus the attached keys, minus every stale key. Every remaining key is current. Old bindings keep their element. New ones are fresh and played: `play()` is requested on exactly the new elements, and each of them has a pending `play()` with the default budget of 3 retries. Exactly the stale elements are torn down. A pass that changes no key changes no binding and plays nothing |
| Audio.AudioManager.Bind | src/components/VoiceInterview/hooks/useAudioManager.ts:93-142 | the registry gains exactly the keys of tracks whose attach succeeds; existing bindings are never rebound; `play()` is requested on exactly the newly bound elements, each handed to `playWithRetry` with the default budget |
| Audio.AudioManager.Cleanup | src/components/VoiceInterview/hooks/useAudioManager.ts:145-152 | the registry keeps exactly its current keys; the elements of deleted keys are torn down |
| Audio.Attempts | src/components/VoiceInterview/hooks/useAudioManager.ts:75-89 | with `retries` left, `play()` is called between 1 and `retries + 1` times |
| Audio.Exhausted | src/components/VoiceInterview/hooks/useAudioManager.ts:79-86 | the prompt condition: never when the first `play()` resolves, and when it holds all `retries + 1` attempts were made |
| Audio.ExhaustedIff | src/components/VoiceInterview/hooks/useAudioManager.ts:75-88 | the prompt condition (budget exhausted) holds if and only if each of the `retries + 1` attempts is rejected |
| Audio.AttemptsStopAtFirstSuccess | src/components/VoiceInterview/hooks/useAudioManager.ts:75-88 | attempts stop at the first resolved `play()`; every earlier attempt was rejected; an exhausted budget made all `retries + 1` attempts |
| Audio.AlwaysRejectedPlay | src/components/VoiceInterview/hooks/useAudioManager.ts:75-88 | a `play()` that always rejects is called 4 times under the default budget of 3, and then raises the prompt |
| Audio.FirstPlaySucceeds | src/components/VoiceInterview/hooks/useAudioManager.ts:76-78 | a first `play()` that resolves is the only attempt and raises no prompt |
| Audio.AudioManager.PlayWithRetry | src/components/VoiceInterview/hooks/useAudioManager.ts:75-77 | `play()` is requested on the element and its promise is pending with the retries the call was given |
| Audio.AudioManager.SettlePlay | src/components/VoiceInterview/hooks/useAudioManager.ts:76-88 | the promise settles: a resolved `play()` ends the chain; a rejection schedules a retry with one retry fewer, or with none left raises the prompt; nothing else changes |
| Audio.AudioManager.FireRetry | src/components/VoiceInterview/hooks/useAudioManager.ts:82-84 | the scheduled retry runs `playWithRetry` again with the retries it was given, and the timer is gone |
| Audio.AudioManager.SettleChain | src/components/VoiceInterview/hooks/useAudioManager.ts:75-89 | a pending `play()` and every retry after it, with no other handler in between: the prompt is raised exactly when the budget is exhausted; the number of calls is `Attempts`; call k is made `k * 600` ms after the first; nothing is left pending or scheduled |
| Audio.AudioManager.RetryChain | src/components/VoiceInterview/hooks/useAudioManager.ts:75-89 | a whole `playWithRetry(element, retries)` with no other handler between its steps: the same prompt, count and timing, and `play()` is requested on the element |
| Audio.PromptReturnsAfterEnable | src/components/VoiceInterview/hooks/useAudioManager.ts:79-86 | the prompt that `enableAudio` clears (line 168) is raised again by a chain still retrying |
| Audio.RetryAfterDispose | src/components/VoiceInterview/hooks/useAudioManager.ts:44-71 | the unmount clean-up leaves a scheduled retry in place, which calls `play()` on the removed element |

| Audio.AudioManager.OnPlay | src/components/VoiceInterview/hooks/useAudioManager.ts:105-113 | AI speaking, user not speaking, prompt cleared; capture stops only if the captured `isListening` was true; the transcript is always reset |
| Audio.AudioManager.OnEnded | src/components/VoiceInterview/hooks/useAudioManager.ts:115-116 | the AI stops speaking |
| Audio.AudioManager.ResumeAfterPlayback | src/components/VoiceInterview/hooks/useAudioManager.ts:117-122 | capture restarts only when the interview is active and capture was off, and then `userSpeaking` is set to false; otherwise nothing changes |
| Audio.AudioManager.OnPause | src/components/VoiceInterview/hooks/useAudioManager.ts:125 | the AI stops speaking |
| Audio.AudioManager.OnError | src/components/VoiceInterview/hooks/useAudioManager.ts:126-129 | the AI stops speaking |
| Audio.AudioManager.EnableAudio | src/components/VoiceInterview/hooks/useAudioManager.ts:155-171 | without a context the optional chain cannot throw (the requires); a `resume()` that throws changes nothing; otherwise `play()` is requested on every bound element and the prompt is cleared |
| Audio.PreferredVoice | src/components/VoiceInterview/hooks/useAudioManager.ts:183-188 | a voice qualifies when its lower-cased name contains female, woman, samantha or karen |
| Audio.FirstPreferredVoice | src/components/VoiceInterview/hooks/useAudioManager.ts:182-188 | the position of the first voice whose lower-cased name contains female, woman, samantha or karen; none exactly when no voice qualifies |
| Audio.FallbackVoice | src/components/VoiceInterview/hooks/useAudioManager.ts:182-192 | the chosen voice is in the list and qualifies; the voice is left at the default exactly when none qualifies |
| Audio.AudioManager.SpeakTextFallback | src/components/VoiceInterview/hooks/useAudioManager.ts:173-217 | with an engine: one cancel, then one utterance at rate 0.9, pitch 1.0 and volume 1.0 in the fallback voice; without one, nothing |
| Audio.AudioManager.OnUtteranceStart | src/components/VoiceInterview/hooks/useAudioManager.ts:194-200 | AI speaking, test result success, capture stopped only if it was on |
| Audio.AudioManager.OnUtteranceEnd | src/components/VoiceInterview/hooks/useAudioManager.ts:202-203 | the AI stops speaking; `userSpeaking` is not touched |
| Audio.AudioManager.ResumeAfterUtterance | src/components/VoiceInterview/hooks/useAudioManager.ts:204-208 | capture restarts only when the interview is active and capture was off |
| Audio.AudioManager.OnUtteranceError | src/components/VoiceInterview/hooks/useAudioManager.ts:211-214 | the AI stops speaking and the test result is failed |
| Audio.AudioManager.Dispose | src/components/VoiceInterview/hooks/useAudioManager.ts:44-71 | every bound element is torn down, the registry is emptied, synthesis is cancelled once if present, the context is closed; pending `play()` calls and scheduled retries are left in place |
| InterviewScreen.MessageType | src/components/VoiceInterviewScreen.tsx:112-137 | a type with a handler names that conversation type, never `speaking` |
| InterviewScreen.MessageTypeIff | src/components/VoiceInterviewScreen.tsx:112-137 | exactly question, greeting and feedback have a handler |
| InterviewScreen.HandledKind | src/components/VoiceInterviewScreen.tsx:140-142 | a message is handled if and only if its text is non-empty and its type has a handler |
| InterviewScreen.Screen.HandleDataMessage | src/components/VoiceInterviewScreen.tsx:108-143 | a handled message appends exactly one `ai` entry of its type. Question and greeting messages also set the current question; feedback leaves it. Any other message changes neither history nor question |
| InterviewScreen.DataMessageIsShown | src/components/VoiceInterviewScreen.tsx:108-143 | after a handled message, the question panel shows that message's entry |
| InterviewScreen.ApplyTranscript | src/components/VoiceInterviewScreen.tsx:279-305 | a blank transcript leaves the history unchanged. Otherwise the last entry becomes user speech carrying the transcript. When the history grows, every old entry is kept and the new entry is appended; when it does not, only the last entry is replaced. The history grows by one exactly when its last entry was not user speech |
| InterviewScreen.TranscriptsCoalesce | src/components/VoiceInterviewScreen.tsx:279-305 | two non-blank transcripts in a row leave the same history as the later alone |
| InterviewScreen.TranscriptRunIsOneEntry | src/components/VoiceInterviewScreen.tsx:279-305 | any run of non-blank transcripts adds at most one entry, holding the last transcript |
| InterviewScreen.Screen.TranscriptEffect | src/components/VoiceInterviewScreen.tsx:279-305 | the history becomes `ApplyTranscript` of the old history; `userSpeaking` is set exactly when the transcript is not blank |
| InterviewScreen.Reverse | src/components/VoiceInterviewScreen.tsx:447 | `[...h].reverse()` holds the entries of `h` in the opposite order |
| InterviewScreen.FindAI | src/components/VoiceInterviewScreen.tsx:447-449 | `find` returns the first AI entry, and nothing exactly when there is none |
| InterviewScreen.LastAIEntry | src/components/VoiceInterviewScreen.tsx:447-449 | the entry the panel looks up is an AI entry of the history |
| InterviewScreen.LastAIEntryIsLatest | src/components/VoiceInterviewScreen.tsx:447-449 | the lookup gives an AI entry with no AI entry after it, and nothing exactly when the history has no AI entry |
| InterviewScreen.LastAIEntryAppend | src/components/VoiceInterviewScreen.tsx:447-449 | appending an AI entry makes it the one found; appending anything else leaves the lookup unchanged |
| InterviewScreen.LastAIEntryIgnoresTranscript | src/components/VoiceInterviewScreen.tsx:447-449 | a transcript update never changes which AI entry the panel shows |
| InterviewScreen.CurrentQuestionPanel | src/components/VoiceInterviewScreen.tsx:445-506 | the panel shows the last AI entry if there is one. Otherwise it shows a non-blank current question. Otherwise the start prompt while inactive, and "waiting" while active; each case holds exactly under its condition |
| InterviewScreen.ReportedStatus | src/components/VoiceInterviewScreen.tsx:224-238 | priority connecting, then connected, then error, then disconnected (the last only with a session), each case exactly under its condition; otherwise no write |
| InterviewScreen.HasLiveKitProps | src/components/VoiceInterviewScreen.tsx:146 | `livekitProps` exist exactly when a session is stored and its participant token is non-empty |
| InterviewScreen.PropsAlwaysReport | src/components/VoiceInterviewScreen.tsx:146 | LiveKit props imply a stored session, so the effect always writes a status |
| InterviewScreen.Screen.SyncConnectionStatus | src/components/VoiceInterviewScreen.tsx:224-238 | without LiveKit props the status is untouched; with them it becomes the reported status |
| InterviewScreen.Screen.OnRoomConnected | src/components/VoiceInterviewScreen.tsx:149-152 | status connected, when LiveKit props exist |
| InterviewScreen.Screen.OnRoomDisconnected | src/components/VoiceInterviewScreen.tsx:153-156 | status disconnected, when LiveKit props exist |
| InterviewScreen.Screen.OnRoomError | src/components/VoiceInterviewScreen.tsx:157-160 | status error, when LiveKit props exist |
| InterviewScreen.Screen.constructor | src/components/VoiceInterview/hooks/useVoiceInterviewState.ts:31-50 | the screen mounts with the initial cells, no timer pending and no call made, and the session invariant holds |
| InterviewScreen.Screen.Valid | src/components/VoiceInterviewScreen.tsx:241-273 | the session invariant: a stored session has a token; `livekitReady` implies a session; a pending connect implies `livekitReady` and the modal; the modal is up only while a connect is pending or a session waits for one; the connects made equal those of earlier sessions plus one once this session's connect has fired |
| InterviewScreen.Screen.ConnectEffect | src/components/VoiceInterviewScreen.tsx:241-246 | a connect is scheduled, and `livekitReady` set first, exactly when the session has a token and `livekitReady` was false; the session invariant is kept |
| InterviewScreen.Screen.FireConnect | src/components/VoiceInterviewScreen.tsx:248-273 | one room connect. On success the interview goes live with `startTime = now` and listening is scheduled. On failure the interview stays inactive with status error and an alert. The modal is lowered either way; the session invariant is kept |
| InterviewScreen.Screen.FireListeningStart | src/components/VoiceInterviewScreen.tsx:259-265 | capture starts and `userSpeaking` is set only when recognition is supported and the captured `isListening` was false |
| InterviewScreen.Screen.Tick | src/components/VoiceInterviewScreen.tsx:200-209 | while active with a non-zero start time, the elapsed time is `now - startTime`; otherwise it is unchanged |
| InterviewScreen.StartResultOf | src/components/VoiceInterviewScreen.tsx:322-375 | a session is stored only if the resume did not throw and the backend returned a session with a token. A missing session or a missing token fails with its message; any other throw fails with its message or "Unknown error occurred" |
| InterviewScreen.StoredSessionHasProps | src/components/VoiceInterviewScreen.tsx:351-357 | a stored session always yields LiveKit props |
| InterviewScreen.StartCalls | src/components/VoiceInterviewScreen.tsx:338-374 | the calls a start makes, in order: the backend request (unless resuming the audio context failed) and, on a failed start, the alert with the backend's message; the contracts of `RequestSession` and the two start methods are stated through it |
| InterviewScreen.Screen.RequestSession | src/components/VoiceInterviewScreen.tsx:322-375 | the end confirmation is cleared, and the backend is asked with the participant name, the agent enabled and the selected provider. On failure: status error, modal lowered, one alert. On success: modal up, status connecting |
| InterviewScreen.Screen.StoreSession | src/components/VoiceInterviewScreen.tsx:356-366 | the session and the agent status drawn from it are stored, and history and question are cleared |
| InterviewScreen.Screen.StartVoiceInterview | src/components/VoiceInterviewScreen.tsx:322-376 | the corrected start of "## Findings": as the source on every path, plus `livekitReady` cleared when a session is stored, so that the session invariant is kept |
| InterviewScreen.Screen.BeginSession | src/components/VoiceInterviewScreen.tsx:356-366 | the corrected success tail: the session is stored as the source does, `livekitReady` is cleared, and the connects made so far are counted as earlier sessions' |
| InterviewScreen.Screen.StartVoiceInterviewAsWritten | src/components/VoiceInterviewScreen.tsx:322-376 | the start as written. The backend call and, on failure, one alert are logged. On success: the session and agent status are stored, history `[]`, question `''`, modal up, status connecting, confirmation cleared, and `livekitReady` kept as it was. On failure: session, agent status, history, question and `livekitReady` are untouched, status error, modal lowered, the alert last |
| InterviewScreen.Screen.EndInterview | src/components/VoiceInterviewScreen.tsx:378-405 | always inactive and not listening. The room is left only with props. Both end calls are made whatever they throw, and the parent's callback comes last; the session invariant is kept |
| InterviewScreen.Screen.HandleEndInterviewClick | src/components/VoiceInterviewScreen.tsx:407-409 | only the end confirmation is raised |
| InterviewScreen.Screen.ConfirmEndInterview | src/components/VoiceInterviewScreen.tsx:411-414 | the confirmation is cleared, and the interview is ended with the same calls as `EndInterview` |
| InterviewScreen.Screen.CancelEndInterview | src/components/VoiceInterviewScreen.tsx:416-418 | only the end confirmation is cleared |
| InterviewScreen.Screen.BeforeUnload | src/components/VoiceInterviewScreen.tsx:307-320 | an active interview is ended with the same calls as `EndInterview`; an inactive one makes no call and leaves capture as it was |
| InterviewScreen.Screen.ToggleMicrophone | src/components/VoiceInterviewScreen.tsx:420-434 | when listening: stop, `userSpeaking` false, and local audio stopped with props. Otherwise local audio is started with props, then listening starts with `userSpeaking` true, unless `startAudio` rejects |
| InterviewScreen.Screen.TestAudio | src/components/VoiceInterviewScreen.tsx:436-440 | the test result is cleared; with an engine, one cancel and one utterance of the fixed test sentence in the fallback voice; without one, nothing else |
| InterviewScreen.FirstConnectFails | src/components/VoiceInterviewScreen.tsx:241-272 | a first session whose connect fails leaves the Start button enabled (inactive, modal lowered), with `livekitReady` true and one connect made |
| InterviewScreen.RetryAfterConnectFailureStalls | src/components/VoiceInterviewScreen.tsx:241-272 | as written, starting again after a failed connect leaves the modal up with no connect pending and the interview inactive, after only one connect |
| InterviewScreen.RetryAfterConnectFailureConnects | src/components/VoiceInterviewScreen.tsx:241-272 | with the corrected start, the same sequence connects the second session (two connects) and the interview goes live |

## Left out

- The JSX markup (`VoiceInterviewScreen.tsx` from line 509 on) and `InterviewModals.tsx` are UI only. Two button guards enter the model as `requires` of `StartVoiceInterview`: the Start button is shown only while inactive and is disabled while the modal is up.
- `src/services/voiceInterviewService.ts`, the Python agent, the health checks, `src/utils/livekitTest.ts` and the build configuration are not part of this model. Backend calls enter as outcomes (`StartReply`, `Outcome`) or as entries of the call log.
- `src/hooks/useLiveKit` and `src/hooks/useSpeechRecognition` are not part of this model. `SpeechRecognizer` stands in for the second. For the first, the room's flags are parameters of `SyncConnectionStatus`, and the model assumes the room connects only through `connect`.
- Timers, intervals and `Date.now()`: delays are the named constants and separate "fire" methods; clock readings are parameters. The interval's clean-up on effect re-run is not modelled, and the listening-start timer, which the source never cancels, fires whenever its method is called.
- Stale closures: element and utterance callbacks take the `isListening`/`isInterviewActive` their closure captured as parameters, and `FireListeningStart` takes the captured `isListening`.
- React scheduling: the transcript effect re-runs whenever the history changes. On each re-run only the last entry's timestamp is refreshed, which `ApplyTranscript` describes; the re-render loop itself is not modelled.
- InterviewScreen.Screen.TranscriptEffect: the source decides between appending and replacing from the rendered `conversationHistory` (`VoiceInterviewScreen.tsx:284-285`) but applies the update to the updater's `prev` (286, 294). The model uses one history for both, so an update queued between the render and the updater is not modelled.
- The audio-level meter (`Math.random()`, `VoiceInterviewScreen.tsx:212-220`), the interview simulator and its progress, the notes text area, `showProviderSelection`, and the unused duplicate refs of `useVoiceInterviewState.ts`.
- The audio-context initialisation (`useAudioManager.ts:26-42`) is the constructor, which mounts once; closing an earlier context on a re-run of the effect is not modelled. The `try/catch` around element tear-down in `Dispose` is not modelled, since tear-down cannot fail in the model.
- Audio.ReconcileIdempotent: the second pass is taken to end each `attach` call as the first did; the source calls `attach` again for every track the first pass left unbound, and a retry that now succeeds would bind it.
- Audio.AudioManager.SettleChain: the time a `play()` call takes to settle is taken as zero, so the stated `k * 600` ms offsets are lower bounds on the real ones. The same holds for `Audio.AudioManager.RetryChain`.
- Utils.JsValue: a property list may repeat a key, which no JavaScript object does. On such a list `Get` reads the first property while the copy loop keeps the last one; `Utils.GetFindsEach` and `Utils.RenamedReadsAsOriginal` assume distinct keys.
- DOM elements are opaque numbered handles; attach, append and `style` have no modelled effect beyond binding.
- `endInterview` leaves `voiceSession` set and does not reset `livekitReady`; the model follows the code.
- HandledKind: `messageTypes[data.type]` also finds inherited properties such as `constructor` or `toString`, which run no setter; the model treats every key outside the three types as unhandled, which agrees on the state. For the types `__proto__` (not callable), `__defineGetter__` and `__defineSetter__` (called with no argument) the call throws a `TypeError`, so `handleDataMessage` throws; the state is still unchanged, which the model also gives.
- HandledKind: `data.type` and `data.text` are modelled as strings ("" for absent); other JavaScript values in those fields are left out.
- Utils.FormatTime: numbers from 10^21 up render in exponent form in JavaScript, and non-integer milliseconds are not modelled; the model takes integer milliseconds.
- Strings.LowerAscii: `toLowerCase()` is modelled for ASCII letters only.
- Utils.CamelCaseSession: `for...in` enumeration order is modelled as the order of the property sequence; inherited enumerable properties are left out.
- Audio.AudioManager.SpeakTextFallback: the rate, pitch and volume are `real` constants, not IEEE floats.

## Findings

| source | as written | input that shows it | evidently intended | confidence | as-written member | corrected member |
|---|---|---|---|---|---|---|
| src/components/VoiceInterviewScreen.tsx:241-272 | `startVoiceInterview` stores a new session but never clears `livekitReady`, and the connect effect acts only while `livekitReady` is false | start with a valid session; its connect throws (status error, modal lowered, Start button enabled); click Start again and get a valid session: no connect is scheduled and the starting modal stays up for ever | each stored session gets its own connect, so a retry after a failed connect goes live | high; not executed | InterviewScreen.RetryAfterConnectFailureStalls | InterviewScreen.RetryAfterConnectFailureConnects |
