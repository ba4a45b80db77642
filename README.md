# Voice tutor live session: a Dafny model

This project models the two pieces of sequential logic in the voice-first
tutoring client.

1. **The live duplex session** (`hooks/useMultimodalLive.ts`). The model is one
   object, `LiveSession.Session`. Its fields are the hook's state and refs:
   - the connection state
   - the chat messages
   - the input and output transcript buffers and the grounding-chunk list
   - the playback cursor `nextStartTime` and the set of active playback sources
   - which audio resources and which channel are held
   - a log of what was sent over the channel

   Each callback and entry point of the hook is a method. `onmessage` applies
   its five steps in source order: deltas, chunks, turn completion, audio,
   interruption. The pure rules behind those steps are functions with proved
   properties:
   - the turn buffers and message emission (module `Turns`)
   - the cursor rule and fragment runs (module `Playback`)
   - JavaScript's `trim` and the decimal rendering of timestamps in message ids (module `Text`)
2. **The tutor interface's decisions** (`components/JarvisInterface.tsx`).
   - The pure rules are functions in module `TutorRules`: subject lookup, the
     trial gate, history topics, the upload type check and the hidden steering texts.
   - The component state that its handlers and effects update is the object
     `TutorInterface.Interface`. It drives the session object.

Three things come in as parameters:
- the clocks: `Date.now()` as a natural number of milliseconds, and the output
  context's `currentTime` as a non-negative real number of seconds;
- what the user does: picking an API key, a file or a checkout result;
- what the browser decides: whether the microphone is granted.

Fragment durations are non-negative reals, so the cursor arithmetic is exact.
Playback sources are numbered from a counter (`nextSourceId`). This stands in
for the fresh object that `createBufferSource` returns for each fragment.

Every event runs to completion before the next one starts. A React effect is
modelled as a method; a caller runs it after a change to what the effect
depends on.

## Model

| member | source | states |
|---|---|---|
| `Text.Trim` | hooks/useMultimodalLive.ts:193-194 | `trim()` removes exactly the ECMAScript whitespace and line terminators at both ends; the result is empty iff the text is all whitespace, otherwise it is the slice between the whitespace prefix and suffix and starts and ends with a non-whitespace character |
| `Text.TrimUntrimmed` | hooks/useMultimodalLive.ts:193-194 | a text with no whitespace at either end is its own trim |
| `Text.NatToString` | hooks/useMultimodalLive.ts:201-205 | `${timestamp}` renders at least one decimal digit, with no leading zero |
| `Text.ParseNatToString` | hooks/useMultimodalLive.ts:201-205 | reading the rendered timestamp back gives the timestamp |
| `Text.NatToStringInjective` | hooks/useMultimodalLive.ts:201-205 | two timestamps give the same id text iff they are equal |
| `Playback.StartTime` | hooks/useMultimodalLive.ts:225 | a fragment starts at `max(cursor, currentTime)`: no earlier than either, and at one of them |
| `Playback.NoOverlap` | hooks/useMultimodalLive.ts:225-233 | for any arrival times, each fragment starts no earlier than its arrival and than the end of the previous one; the final cursor is the end of the last one |
| `Playback.CursorMonotone` | hooks/useMultimodalLive.ts:225-233 | scheduling never moves the cursor back, and moves it on by at least the total duration scheduled |
| `Playback.BackToBack` | hooks/useMultimodalLive.ts:222-233 | fragments that arrive before the previous ones finish play back to back; the cursor ends at the first start plus the sum of the durations |
| `Playback.TwoFragments` | hooks/useMultimodalLive.ts:222-233 | fragments of 1.0 s and 1.5 s, the second arriving 50 ms late, start at `t0` and `t0+1.0`; the cursor ends at `t0+2.5` |
| `Playback.StartAfterReset` | hooks/useMultimodalLive.ts:225-240 | after the cursor is reset to 0, the next fragment starts at the device's current time |
| `Turns.WithDeltas` | hooks/useMultimodalLive.ts:176-189 | output and input deltas and grounding chunks are appended to their buffers, which keep their old contents as a prefix |
| `Turns.Emitted` | hooks/useMultimodalLive.ts:191-214 | turn complete emits a user message iff the trimmed input is non-empty (id `user-t`, time `t`), then an assistant message iff the trimmed output is non-empty (id `ai-(t+1)`, time `t+1`, chunks only if there are some); nothing when both are blank |
| `Turns.Receive` | hooks/useMultimodalLive.ts:176-244 | the buffers after one message: turn complete empties all three; otherwise the input grows by its delta; without an interruption all three grow; an interruption empties the output and the chunks |
| `Turns.EmittedOrdered` | hooks/useMultimodalLive.ts:197-213 | within one turn the user message precedes the assistant message, with a strictly smaller timestamp and a different id |
| `Turns.CitationsAttached` | hooks/useMultimodalLive.ts:195-209 | the assistant message carries the snapshot chunk list iff it is non-empty |
| `Turns.DeltasInArrivalOrder` | hooks/useMultimodalLive.ts:176-189 | across messages that neither complete nor interrupt the turn, every buffer is its old contents followed by the deltas or chunks in arrival order |
| `Turns.InterruptionDiscardsOutput` | hooks/useMultimodalLive.ts:236-244 | an interruption that does not also complete the turn keeps the input text, drops the partial answer and its citations, and so no assistant message comes from them |
| `Turns.CompletionBeforeInterruption` | hooks/useMultimodalLive.ts:191-244 | a message that both completes and interrupts emits the partial answer with its citations before the interruption runs, and leaves the buffers empty |
| `Turns.InterruptedAtCompletion` | hooks/useMultimodalLive.ts:191-244 | a buffered answer "partial" followed by one message with both flags emits one assistant message "partial" |
| `Turns.HelloTurn` | hooks/useMultimodalLive.ts:172-219 | output deltas "Hel" and "lo" followed by a turn complete with no input emit one assistant message "Hello" and leave the buffers empty |
| `LiveSession.Session.constructor` | hooks/useMultimodalLive.ts:36-63 | a new session is disconnected, with no messages, empty buffers, a zero cursor and nothing held |
| `LiveSession.Session.CleanupAudio` | hooks/useMultimodalLive.ts:65-92 | cleanup stops the microphone and the capture nodes, forgets every playback source, zeroes the cursor and drops both contexts; it changes nothing else |
| `LiveSession.Session.Connect` | hooks/useMultimodalLive.ts:94-263 | with the microphone granted: `connecting`, with the stream, contexts, output node and channel held; otherwise the `catch` at the end of `connect` lands in `error`, with every audio resource released |
| `LiveSession.Session.OnOpen` | hooks/useMultimodalLive.ts:138-171 | `onopen` gives `connected` and builds the capture nodes only when an input context and a stream exist |
| `LiveSession.Session.OnAudioProcess` | hooks/useMultimodalLive.ts:151-167 | a captured block is sent at once when the channel exists, and dropped otherwise |
| `LiveSession.Session.AppendDeltas` | hooks/useMultimodalLive.ts:176-189 | the first two steps of a message update the buffers as `WithDeltas` says |
| `LiveSession.Session.CompleteTurn` | hooks/useMultimodalLive.ts:191-220 | on turn complete the messages grow by exactly the emitted ones, earlier messages stay, and all three buffers become empty |
| `LiveSession.Session.ScheduleFragment` | hooks/useMultimodalLive.ts:222-234 | with an output context and node, a fragment gets a new source id, starts at `max(cursor, currentTime)` and moves the cursor to its end; without them nothing changes |
| `LiveSession.Session.Interrupt` | hooks/useMultimodalLive.ts:236-244 | an interruption empties the active set, zeroes the cursor and empties the output buffer and the chunks; the input buffer stays |
| `LiveSession.Session.OnMessage` | hooks/useMultimodalLive.ts:172-245 | the whole message in source order: the new messages are those of `Emitted` on the buffers after the deltas, the buffers follow `Receive`, and the playback state follows the audio step and then the interruption |
| `LiveSession.Session.OnSourceEnded` | hooks/useMultimodalLive.ts:230 | a source's `ended` removes that source and no other |
| `LiveSession.Session.OnClose` | hooks/useMultimodalLive.ts:246-250 | `onclose` gives `disconnected` with every audio resource released |
| `LiveSession.Session.OnError` | hooks/useMultimodalLive.ts:251-255 | `onerror` gives `error` with every audio resource released |
| `LiveSession.Session.Disconnect` | hooks/useMultimodalLive.ts:266-273 | disconnect closes and forgets the channel if there is one, releases all audio and gives `disconnected`; on a disconnected session with no channel it changes nothing, so calling it twice equals calling it once |
| `LiveSession.Session.SendTextMessage` | hooks/useMultimodalLive.ts:275-296 | without a channel nothing happens; otherwise exactly one user message is appended and the text is sent |
| `LiveSession.Session.SendHiddenMessage` | hooks/useMultimodalLive.ts:298-314 | the text is sent when there is a channel; the messages are never touched |
| `LiveSession.Session.SendRealtimeInput` | hooks/useMultimodalLive.ts:316-329 | a media payload is sent when there is a channel |
| `TutorRules.FindMode` | components/JarvisInterface.tsx:215 | `find` gives the first mode with the id, and nothing only when no mode has it |
| `TutorRules.ActiveSubject` | components/JarvisInterface.tsx:215 | the active subject is the mode with the selected id, or the first mode ('universal') when none has it |
| `TutorRules.ActiveSubjectOfMode` | components/JarvisInterface.tsx:41-125 | each mode's id selects that very mode |
| `TutorRules.Access` | components/JarvisInterface.tsx:239-258 | no user means sign in; access is refused iff the plan is "trial", the start date is usable and more than 2,592,000,000 ms have passed (strictly); otherwise access is granted |
| `TutorRules.TrialBoundary` | components/JarvisInterface.tsx:249-251 | exactly thirty days after the start access is granted; one millisecond later it is refused |
| `TutorRules.ExpiryPersists` | components/JarvisInterface.tsx:251 | an expired trial stays expired later |
| `TutorRules.Topic` | components/JarvisInterface.tsx:331 | the topic is at most 63 characters; it is the text when that has at most 60, else its first 60 characters followed by "..." |
| `TutorRules.UploadCheck` | components/JarvisInterface.tsx:409-425 | an upload is accepted iff connected, not `application/pdf` and of a type starting with `image/`; refusals name the first failed check |
| `TutorRules.GreetingIsNotModeSwitch` | components/JarvisInterface.tsx:305-312 | the greeting and the mode-switch messages always differ |
| `TutorRules.FreePlanIsTrial` | components/JarvisInterface.tsx:144-169 | of the three plans offered, exactly the trial costs nothing, so only it takes the free branch of `handlePayment` |
| `TutorInterface.Interface.constructor` | components/JarvisInterface.tsx:188-289 | the first render and mount effect: subject 'universal', the stored user (or the sign-in dialog), the stored history, the API-key flag |
| `TutorInterface.Interface.CheckAccess` | components/JarvisInterface.tsx:239-258 | returns true iff `Access` grants; opens sign-in when there is no user and upgrade when the trial has expired |
| `TutorInterface.Interface.SelectSubject` | components/JarvisInterface.tsx:758 | a subject card click selects its id |
| `TutorInterface.Interface.ResetStartupEffect` | components/JarvisInterface.tsx:292-296 | reaching `disconnected` (and only that) clears `hasStarted` |
| `TutorInterface.Interface.SubjectEffect` | components/JarvisInterface.tsx:299-316 | while connected, the first run sends the greeting and sets `hasStarted`, later runs send the mode-switch message; otherwise nothing |
| `TutorInterface.Interface.HistoryEffect` | components/JarvisInterface.tsx:319-342 | a history item is prepended, and the id remembered, iff the last message is a user message whose id is not the last recorded one; the old history is the tail |
| `TutorInterface.Interface.PendingEffect` | components/JarvisInterface.tsx:350-355 | once connected, a pending text is sent once and cleared |
| `TutorInterface.Interface.ToggleConnection` | components/JarvisInterface.tsx:359-379 | after the access gate: disconnect when connected or connecting (sending the close iff a channel is held), else connect (after a successful key pick when a picker is shown), with the connect outcome in full; the messages, turn buffers and playback ids always stay, and the outbox gains only the close |
| `TutorInterface.Interface.SendText` | components/JarvisInterface.tsx:381-394 | blank input and refused access change nothing in the session; granted access leaves both dialog flags as they were; when connected the text is sent as typed, the input cleared, and nothing of the session but its messages and outbox changes; otherwise the text becomes pending, the input is cleared and the connection toggled |
| `TutorInterface.Interface.FileUpload` | components/JarvisInterface.tsx:403-440 | after the access gate and the file checks, an accepted image is sent as media followed by the upload prompt; every refusal leaves the session unchanged |
| `TutorInterface.Interface.UpdateUserPlan` | components/JarvisInterface.tsx:542-549 | without a user nothing changes; otherwise only the plan changes (name, email, avatar, trial date kept) and the upgrade dialog closes |
| `TutorInterface.Interface.Payment` | components/JarvisInterface.tsx:487-540 | with no user the sign-up dialog opens; the free plan performs no upgrade; a paid and confirmed plan writes `plan.name` to the user |

## Behaviour kept as the code has it

The model follows the code as written, including these easily missed
behaviours:
- `connect` does not check the current state. The interface never calls it
  while connected or connecting.
- `cleanupAudio` does not empty the transcript buffers or the citation list.
  Leftover text from a session that closed mid-turn goes into the first turn
  of the next session. Nothing empties the buffers when a channel opens.
- `cleanupAudio` does not forget the session either; only `disconnect` does.
  So after `onclose` or `onerror`, `sendTextMessage` still appends a message.
- A server message that carries both `turnComplete` and `interrupted` is
  completed first, so its partial answer still becomes an assistant message;
  only a bare interruption discards it (`Turns.CompletionBeforeInterruption`).
- A playback source stopped by an interruption may later fire `ended`.
  Removing a source that is not in the set changes nothing.
- `hasStarted` is reset only on `disconnected`, not on `error`. After an error,
  the next session opened by a toggle gets the mode-switch message instead of
  the greeting (`TutorInterface.ReconnectAfterError` walks through this).
- `handleSendText` while `connecting` stores the text as pending and then
  toggles, which disconnects.
- `handlePayment` writes the plan's display name ("Monthly Pro") into
  `user.plan`, not its id. The trial gate then lets that user in, because the
  plan is no longer "trial".

## Left out

- The loudness (RMS) computation in the capture callback and all of `components/Visualizer.tsx`: floating-point animation values. A captured block is modelled only as a `MicrophoneFrame` send.
- Web Audio and media plumbing: creating contexts, the analyser and gain graph, `getUserMedia` constraints, resuming a suspended context, and what `source.start`/`stop` do to the sound. The model keeps only their effect on which resources are held, the cursor and the active set.
- Decoding of inbound audio and encoding of outbound frames. `utils/audioUtils` is not part of this model. A message's audio is given as the duration of the decoded fragment, and a fragment that fails to decode is not modelled.
- The SDK connection configuration: the model name, the voice, tools, transcription options and each subject's system prompt text.
- The SDK's promise chains. A modelled send happens at once. A rejected session promise, a missing `session.send` and exceptions inside sends are not modelled.
- Interleaving between callbacks:
  - the await on `getUserMedia` inside `connect`; `Connect` is one atomic step that either succeeds or fails;
  - the await on `decodeAudioData` between the cursor `max` and `start`.
- The `state !== 'closed'` test in `cleanupAudio`. A context is closed only by cleanup, which also forgets it, so the model always forgets both contexts.
- The rendered `inProgressInput` and `inProgressOutput` strings. They are set at every change of the transcript buffers and so always equal them; the model keeps only the buffers.
- `localStorage`, `FileReader`, `setTimeout`, Razorpay checkout, `alert`, `confirm`, locale date formatting, `ReactMarkdown` and all rendering. Their results come in as parameters: the stored user and history, the file contents, the announcement time, the checkout result and the date label.
- `FileUpload` sends the media and the prompt in one step under one channel test. In the code they are separate events: the media goes out in `reader.onload` (components/JarvisInterface.tsx:428-430), the prompt 500 ms later in a `setTimeout` (l.434-436), and each tests the session ref on its own, so a disconnect in between would send only the media.
- Sign-up, logout, clearing the history, the Enter-key shortcut and auto-scroll: dialogs and page behaviour outside the session logic.
- `App.tsx`: only a render wrapper.
- Text lengths and the 60-character topic cut count Unicode scalar values, not JavaScript's UTF-16 code units, so text outside the Basic Multilingual Plane is measured differently.
- Timestamps are non-negative integers. Their decimal rendering does not cover JavaScript's exponent form for numbers of 10^21 and more.
