# Klug Study Mate: conversation lifecycle

A Dafny model of the request and conversation lifecycle of a browser chat
client for a hosted generative model. The client keeps a transcript of
messages, a loading flag, a listening flag, a single staged image and a
voice-input accumulator. It turns a typed text, a staged image or a spoken
turn into an outbound request and folds the answers back into the
transcript.

- `Wrappers` (wrappers.dfy): `Option` and `Result`.
- `JsText` (jstext.dfy): JavaScript `trim` and one-character `split`, and
  the truthiness of a `string | null`.
- `Types` (types.dfy): the `Message` record, sender and kind, opaque ids
  and clock readings.
- `GeminiService` (gemini.dfy): `initAI`'s key check, the shaping of a
  `generateContent` request, and the error mapping of `generateAnswer`.
  The remote call is a function parameter.
- `InputArea` (input_area.dfy): the input bar's send guard, key handling,
  file selection and the `disabled` state of every control.
- `App` (app.dfy): the state machine. Every handler and asynchronous
  continuation of App.tsx that changes the state the client keeps is one
  event. `Step` applies an
  event atomically and `Run` applies a sequence of events.
- `Wiring` (wiring.dfy): how the three parts fit together. The bar's guards
  agree with App's guard, a send gesture is all or nothing, and the
  requests carry what was staged.

Behaviours of the code worth noting:
- A failed file decode leaves any previously staged image in place. It does
  not empty the staging slot.
- Toggling voice off lowers only `isListening`. The session reference it
  would drop is never assigned, so nothing else happens, and `isLoading`
  can stay up.
- The voice session exists only as the two flags and the session
  callbacks. The model keeps no other session state.
- A live message whose model turn has no `parts` makes the handler throw
  right after the accumulator update. Nothing is appended and both flags
  stay as they were, even when the message also completes the turn.

## Model

| member | source | states |
|---|---|---|
| JsText.TrimStart | App.tsx:41 | the result is a suffix of the input, it does not start with whitespace, and everything cut off was whitespace |
| JsText.TrimEnd | App.tsx:41 | the result is a prefix of the input, it does not end with whitespace, and everything cut off was whitespace |
| JsText.Trim | components/InputArea.tsx:29 | `trim()` is empty exactly when every character is whitespace; a non-empty result starts and ends with non-whitespace |
| JsText.TrimIsSlice | components/InputArea.tsx:29 | `trim()` removes only a whitespace prefix and a whitespace suffix: the input is that prefix, then the result, then that suffix |
| JsText.TrimIdempotent | App.tsx:137 | trimming twice is trimming once, so a text stored as `text.trim()` is already trimmed (used by App.VoiceEntryIsTrimmed) |
| JsText.IndexOf | services/geminiService.ts:23 | the first separator position, or none exactly when the separator does not occur |
| JsText.Split | services/geminiService.ts:23 | `split(sep)` yields at least one piece, no piece contains the separator, and joining the pieces with it gives back the input |
| JsText.SplitJoin | services/geminiService.ts:23 | splitting a join of separator-free pieces gives the pieces back (the other half of the round trip) |
| JsText.SplitAt | services/geminiService.ts:23 | `split(sep)[i]` is undefined exactly past the last piece and never contains the separator |
| GeminiService.InitAI | services/geminiService.ts:4-12 | a client exactly for a present, non-empty key, holding that key; otherwise the fixed missing-key error |
| GeminiService.ImagePayload | services/geminiService.ts:23 | the payload sent for an image never contains a comma |
| GeminiService.ImagePayloadStripsPrefix | services/geminiService.ts:23 | for `<header>,<payload>` with no other comma, the payload is exactly what follows the first comma |
| GeminiService.ImagePayloadWithoutComma | services/geminiService.ts:23 | a data URI without a comma has an undefined payload |
| GeminiService.BuildRequest | services/geminiService.ts:15-43 | every request names model `gemini-2.5-flash` and the one system instruction; it has parts exactly when the image is truthy, so "" counts as no image |
| GeminiService.BuildRequestRoundTrip | services/geminiService.ts:19-43 | the prompt can be read back from every request; with a truthy image the contents are exactly [inline `image/jpeg` payload, text prompt], otherwise the bare prompt |
| GeminiService.GenerateAnswer | services/geminiService.ts:14-49 | succeeds exactly when the remote call does, passing its reply through; any failure becomes the one error "Failed to get a response from the AI." |
| InputArea.HandleSend | components/InputArea.tsx:28-33 | forwards exactly when the draft has a non-whitespace character or an image is staged; it forwards the raw draft and clears it, and otherwise keeps it |
| InputArea.HandleKeyDown | components/InputArea.tsx:35-40 | the default is suppressed exactly for Enter without Shift; only then can a send happen; other keys keep the draft |
| InputArea.HandleFileSelect | components/InputArea.tsx:42-47 | forwards a file exactly when the list is present and non-empty, and then its first entry; the input is always reset to '' |
| InputArea.ControlsFor | components/InputArea.tsx:52-116 | send disabled iff disabled or (blank draft and no truthy image); voice disabled iff disabled and not listening; camera, attach and text box disabled iff disabled; the remove button exists iff an image is truthy, and is then disabled iff disabled |
| InputArea.SendButtonAgreesWithHandleSend | components/InputArea.tsx:113-116 | the send button is enabled exactly when the bar is enabled and `handleSend` would forward |
| InputArea.StopAlwaysReachable | components/InputArea.tsx:91-96 | while listening, the voice (stop) button is never disabled |
| InputArea.EnterIsSend | components/InputArea.tsx:35-40 | Enter without Shift has the same effect on the draft as `handleSend` |
| App.Initial | App.tsx:14-26 | the first state holds the greeting alone, with both flags down, the camera closed, nothing staged and no client yet |
| App.OnMount | App.tsx:31-35 | the mount effect changes only the client, which afterwards exists exactly when it did before or `initAI` succeeded; an existing client is kept and the state is unchanged |
| App.MountCreatesClient | App.tsx:31-35 | without a client, mounting creates one exactly for a present, non-empty key, and it holds that key |
| App.Accepts | App.tsx:38-42 | the guard of `handleSendMessage` holds exactly when not loading and either `trim()` of the text is non-empty or a truthy image is staged (its effect on a refused send is App.RefusedSendIsNoOp) |
| App.PromptFor | App.tsx:41 | the prompt is "Describe this image." when an image is truthy and the text is blank, and the raw text otherwise |
| App.HandleSendMessage | App.tsx:37-82 | a refused send changes nothing and calls nothing; an accepted one keeps the old transcript as a prefix and appends the user entry after it; a call starts exactly when accepted with a client, on the substituted prompt and the staged image |
| App.StartSend | App.tsx:44-81 | an accepted send keeps the old transcript as a prefix, puts the user entry right after it, and starts a call exactly when there is a client |
| App.RefusedSendIsNoOp | App.tsx:38-42 | while loading, or with blank text and no truthy image, a send leaves the state unchanged and starts no call |
| App.UserMessage | App.tsx:44-51 | the entry is from USER, holds the text as given and the staged image as its URL, and is of kind IMAGE exactly when that image is truthy (App.UserMessageShape shows it is what a send appends) |
| App.Settle | App.tsx:56-81 | the `finally`-completed answer keeps the old transcript as a prefix, appends one AI text entry holding the answer, lowers loading and clears the staged image, and changes nothing else (per event: App.ResolutionAppendsOneAnswer) |
| App.UserMessageShape | App.tsx:44-54 | the entry an accepted send appends right after the old transcript is from USER, holds the raw text and the staged image as its URL, and is of kind IMAGE exactly when an image was pending |
| App.AcceptedSendAppendsUserEntry | App.tsx:44-58 | with a client, an accepted send appends exactly one user entry and sets loading; nothing else changes, the staged image included |
| App.AcceptedSendWithoutClient | App.tsx:56-81 | without a client, an accepted send appends the user entry then the apology, lowers loading, clears the staged image, changes nothing else and starts no call |
| App.ResolutionAppendsOneAnswer | App.tsx:56-81 | each answer appends exactly one AI text entry, the reply on success and the fixed apology on failure, then lowers loading and clears the staged image; nothing else changes |
| App.CaptureReplacesStaged | App.tsx:84-87 | a capture stages the shot whatever was staged before, closes the camera, and changes nothing else |
| App.HandleCapture | App.tsx:84-87 | a capture stages the shot and closes the camera, and changes nothing else (per event: App.CaptureReplacesStaged) |
| App.FileError | App.tsx:93-103 | the decode failure appends exactly one AI entry with the fixed file-error text after the old transcript, and changes nothing else, the staged image included (per event: App.FileFailKeepsStaged) |
| App.ClearPendingIdempotent | App.tsx:229 | clearing empties the slot, clearing twice equals clearing once, and clearing an empty slot changes nothing |
| App.FileOkStages | App.tsx:89-92 | a decoded file replaces the staged image and changes nothing else |
| App.FileFailKeepsStaged | App.tsx:93-103 | a failed decode appends the fixed file-error entry, leaves the staged image as it was, and changes nothing else |
| App.ToggleVoiceChat | App.tsx:106-126 | the toggle never touches the transcript or the staged image; while listening it lowers `isListening` and keeps `isLoading`; otherwise both flags end up exactly when there is a client (App.VoiceOn, App.VoiceOffOnlyLowersListening) |
| App.StopVoice | App.tsx:187-211 | the microphone-failure, error and close paths, and the no-client branch of the toggle at App.tsx:119-123, lower both flags and change nothing else (per event: App.VoiceAbortAppendsNothing, App.VoiceOn) |
| App.VoiceOn | App.tsx:115-126 | toggling on with a client raises both flags and empties the accumulator; without a client both flags end down; nothing is appended |
| App.VoiceOffOnlyLowersListening | App.tsx:107-114 | toggling off while listening lowers `isListening` and changes nothing else, so `isLoading` is kept |
| App.VoiceAbortAppendsNothing | App.tsx:187-211 | a microphone failure, session error or session close lowers both flags and changes nothing else |
| App.OnLiveMessage | App.tsx:160-185 | `onmessage` keeps the old transcript as a prefix and appends two entries exactly when the turn completes with an output transcription and the model-turn probe does not throw, and none otherwise; a present input transcription becomes the accumulator |
| App.InputTranscriptionOverwrites | App.tsx:160-163 | a message that does not complete a turn but carries an input transcription replaces the accumulator whatever it held, and changes nothing else |
| App.ModelTurnWithoutPartsStops | App.tsx:160-168 | a model turn without `parts` throws after the accumulator update: only the accumulator may change, whatever else the message carries |
| App.TurnCompleteAppendsExchange | App.tsx:131-185 | a completed turn with an output transcription and no parts-less model turn appends the trimmed accumulator as USER text and then the output as AI text, in that order, lowers both flags, leaves the accumulator as the message set it, and changes nothing else |
| App.VoiceEntryIsTrimmed | App.tsx:131-137 | the USER entry of a completed voice turn holds an already trimmed text |
| App.LiveMessageWithoutTurnAppendsNothing | App.tsx:160-185 | a live message that does not complete a turn (no turn end, no output transcription, or a parts-less model turn) appends nothing and leaves both flags alone |
| App.Step | App.tsx:37-213 | no event edits, removes or reorders an entry: the old transcript is a prefix of the new one, which is at most two entries longer |
| App.Run | App.tsx:37-213 | across any sequence of events the transcript only grows at the end |
| App.TranscriptNeverEmpty | App.tsx:14-22 | from the first render, after any events, the greeting is still the first entry, so the transcript is never empty |
| App.LoadingGatesSends | App.tsx:38 | once loading, until an event that may lower the flag, the flag stays up, every send is dropped and only assistant entries are appended |
| Wiring.SendGuardsAgree | components/InputArea.tsx:115 | App accepts a text exactly when the rendered send button is enabled for it, and exactly when not loading and `handleSend` would forward it |
| Wiring.SubmitDraft | components/InputArea.tsx:28-33 | when `handleSend` forwards nothing, neither the draft nor the app state changes and no call starts |
| Wiring.ClickSend | components/InputArea.tsx:113-116 | a click on a disabled send button changes nothing |
| Wiring.ClickSendAllOrNothing | components/InputArea.tsx:28-33 | a click either keeps the draft and the state, or clears the draft and appends it raw as the user entry; the bar never clears a draft that App then drops |
| Wiring.EnterAgreesWithButton | components/InputArea.tsx:103-112 | in the enabled text box, Enter without Shift has the same effect as a click on send |
| Wiring.StopReachableWhileListening | components/InputArea.tsx:93 | while listening the stop control is enabled, and using it stops listening |
| Wiring.ImageSendRequest | services/geminiService.ts:19-29 | sending with a staged `<header>,<payload>` image asks with exactly [inline `image/jpeg` payload, prompt] |
| Wiring.TextSendRequest | services/geminiService.ts:35-42 | sending with nothing truthy staged asks with the raw text alone, the fixed model and the fixed instruction |
| Wiring.Resumption | App.tsx:56-77 | a successful answer resumes the send as a success carrying the reply, and a thrown one as a failure |
| Wiring.AnswerEntryOfCall | App.tsx:56-81 | a call's answer entry holds the remote reply on success and the apology on failure, never the service's error text |
| Wiring.ImageOnlySend | App.tsx:41-54 | staging an image and sending "" asks "Describe this image." while the user entry keeps "", is of kind IMAGE and shows the image |

## Left out

- The generative service and the live duplex session are foreign calls. A
  call is returned as the arguments it would carry, and its outcomes arrive
  as the events `SendOk`, `SendFail`, `Live`, `SessionError` and
  `SessionClose`.
- `Step` accepts every event in every state. The model does not restrict
  the environment to the events an outstanding promise or session could
  deliver.
- Microphone grant, `ai.live.connect` (its model id and its audio and
  transcription configuration) and the streaming of audio frames change no
  state the client keeps. They have no event. Audio capture and encoding
  (utils/audio) are not part of this model.
- File decoding (`fileToBase64` in utils/image) is not part of this model.
  Its two outcomes are the events `FileOk` and `FileFail`.
- In the source, each voice toggle creates its own accumulator. The model
  keeps one accumulator, emptied by each toggle-on that has a client. A
  late callback from an abandoned session would write to it.
- A live message's model turn is modelled only by whether it has `parts`,
  since that alone decides whether the handler throws. The inline audio
  data in the parts is never used by the source, and the model leaves it
  out.
- A throwing `initAI` inside the mount effect would abort rendering. The
  model only leaves the client absent.
- Fields the SDK may leave undefined (`response.text`, a transcription's
  `text`) are modelled as strings.
- `Date.now()` is read once per message in the source. The model takes one
  clock reading per event; ids and timestamps are opaque, and ids are not
  claimed to be unique.
- React scheduling is not modelled: batching, stale closures and the
  dependency lists of `useCallback`. Each event sees the current state.
- Not modelled, as they are presentation or placeholders: the camera modal
  beyond its capture and close events, the upgrade dialog, message bubbles,
  chat window, loader, header and background.
