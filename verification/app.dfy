/** The conversation lifecycle of App.tsx as a state machine. Every React
    handler, and every asynchronous continuation it awaits, is one event;
    `Step` applies an event atomically, as the single UI event loop does.
    The environment decides which events arrive and with what payloads: the
    reply of the model, the outcome of a file decode or of a microphone
    request, the messages of a live session. */
module App {
  import opened Wrappers
  import opened JsText
  import opened Types
  import opened GeminiService

  const GreetingText: string :=
    "Hello! I am Klug AI, your study buddy. How can I help you today?  Pals, ask me anything! \U{1F680}"

  /** The prompt substituted when only an image is sent. */
  const DefaultImagePrompt: string := "Describe this image."

  const SendErrorText: string := "Oops! \U{1F605} Something went wrong. Could you please try that again?"

  const FileErrorText: string := "Sorry, I couldn't process that file. Please try another one. \U{1F4C2}"

  datatype State = State(
    messages: seq<Message>,       // the transcript
    isLoading: bool,
    isCameraOpen: bool,
    isListening: bool,
    pendingImage: Option<string>, // the single staged image, null when None
    inputTranscription: string,   // accumulator of the most recent voice session
    client: Option<Client>)       // aiRef.current

  /** The arguments of one `generateAnswer` call. */
  datatype Call = Call(client: Client, prompt: string, imageBase64: Option<string>)

  /** What a send does: the next state and the remote call it starts, if any. */
  datatype Dispatch = Dispatch(next: State, call: Option<Call>)

  /** The `modelTurn` of a live message: all the handler looks at is whether
      its optional `parts` list is present. */
  datatype ModelTurn = ModelTurn(hasParts: bool)

  /** The `serverContent` of one live-session message; absent fields are
      `None`, and a transcription object is represented by its text. */
  datatype ServerContent = ServerContent(
    inputTranscription: Option<string>,
    modelTurn: Option<ModelTurn>,
    turnComplete: bool,
    outputTranscription: Option<string>)

  /** The inline-audio probe `modelTurn?.parts[0]` does not guard `parts`:
      a model turn without parts throws a TypeError there, which ends the
      handler after the accumulator update. */
  predicate ThrowsOnModelTurn(content: ServerContent) {
    content.modelTurn.Some? && !content.modelTurn.value.hasParts
  }

  /** The handler reaches the turn-complete branch and takes it. */
  predicate CompletesTurn(content: ServerContent) {
    !ThrowsOnModelTurn(content) && content.turnComplete && content.outputTranscription.Some?
  }

  datatype Event =
    | Mount(apiKey: Option<string>)          // the mount effect calling initAI
    | Send(text: string, clock: Clock)       // handleSendMessage up to its await
    | SendOk(reply: string, clock: Clock)    // the awaited answer arrives
    | SendFail(clock: Clock)                 // the awaited answer throws
    | OpenCamera
    | CloseCamera
    | Capture(dataUrl: string)
    | ClearPending
    | FileOk(dataUrl: string)                // fileToBase64 resolves
    | FileFail(clock: Clock)                 // fileToBase64 rejects
    | ToggleVoice                            // toggleVoiceChat up to its await
    | MicFail                                // getUserMedia rejects
    | Live(content: ServerContent, clock: Clock)  // onmessage
    | SessionError                           // onerror
    | SessionClose                           // onclose

  /** `b` extends `a` at the end, leaving every existing entry in place. */
  predicate IsPrefix(a: seq<Message>, b: seq<Message>) {
    |a| <= |b| && b[..|a|] == a
  }

  function Greeting(timestamp: string): Message {
    AiText(Seed, GreetingText, timestamp)
  }

  /** The state on first render: the greeting alone, nothing staged or in
      flight, and no client until the mount effect runs. */
  function Initial(timestamp: string): (s: State)
    ensures s.messages == [Greeting(timestamp)]
    ensures !s.isLoading && !s.isListening && !s.isCameraOpen
    ensures s.pendingImage == None && s.client == None
  {
    State([Greeting(timestamp)], false, false, false, None, "", None)
  }

  /** The mount effect: create the client once. A failing `initAI` leaves it
      absent. */
  function OnMount(s: State, apiKey: Option<string>): (r: State)
    ensures r.client.Some? <==> s.client.Some? || InitAI(apiKey).Success?
    ensures r == s.(client := r.client)
    ensures s.client.Some? ==> r == s
  {
    if s.client.Some? then s
    else
      match InitAI(apiKey)
      case Success(ai) => s.(client := Some(ai))
      case Failure(_) => s
  }

  /** The send guard of `handleSendMessage`: not loading, and an image is
      staged or the text has a non-whitespace character. */
  predicate Accepts(s: State, text: string)
    ensures Accepts(s, text) <==> !s.isLoading && (Trim(text) != "" || Truthy(s.pendingImage))
  {
    !s.isLoading && (Truthy(s.pendingImage) || !AllWhitespace(text))
  }

  /** The prompt given to the model: the fixed description request when an
      image is staged and the text is blank, the raw text otherwise. */
  function PromptFor(text: string, pendingImage: Option<string>): (p: string)
    ensures Truthy(pendingImage) && AllWhitespace(text) ==> p == DefaultImagePrompt
    ensures !(Truthy(pendingImage) && AllWhitespace(text)) ==> p == text
  {
    if Truthy(pendingImage) && Trim(text) == "" then DefaultImagePrompt else text
  }

  /** The user entry of an accepted send: raw text, the staged image as its
      URL, and kind IMAGE exactly when that image is truthy. */
  function UserMessage(text: string, pendingImage: Option<string>, clock: Clock): (m: Message)
    ensures m.sender == User && m.text == Some(text) && m.imageUrl == pendingImage
    ensures m.kind == Image <==> Truthy(pendingImage)
  {
    Message(Millis(clock.millis), User, if Truthy(pendingImage) then Image else Text,
            Some(text), pendingImage, clock.iso)
  }

  /** The end of `handleSendMessage`: the body of `try` or `catch` appends
      the answer, then `finally` clears the loading flag and the staged image. */
  function Settle(s: State, answer: string, clock: Clock): (r: State)
    ensures IsPrefix(s.messages, r.messages) && |r.messages| == |s.messages| + 1
    ensures r.messages[|s.messages|].sender == Ai && r.messages[|s.messages|].text == Some(answer)
    ensures !r.isLoading && r.pendingImage == None
    ensures r.(messages := s.messages, isLoading := s.isLoading, pendingImage := s.pendingImage) == s
  {
    s.(messages := s.messages + [AiText(Millis(clock.millis + 1), answer, clock.iso)],
       isLoading := false,
       pendingImage := None)
  }

  /** The accepted part of `handleSendMessage`: append the user entry and
      set `isLoading`. With a client the call starts; without one the thrown
      error is caught before any await, so the failure entry and the cleanup
      of `finally` happen at once. */
  function StartSend(s: State, text: string, promptForAI: string, clock: Clock): (d: Dispatch)
    ensures IsPrefix(s.messages, d.next.messages) && |d.next.messages| > |s.messages|
    ensures d.next.messages[|s.messages|] == UserMessage(text, s.pendingImage, clock)
    ensures d.call.Some? <==> s.client.Some?
  {
    var started := s.(messages := s.messages + [UserMessage(text, s.pendingImage, clock)], isLoading := true);
    assert started.messages[..|s.messages|] == s.messages;
    match s.client
    case None =>
      var failed := Settle(started, SendErrorText, clock);
      assert failed.messages[..|s.messages|] == s.messages;
      Dispatch(failed, None)
    case Some(ai) => Dispatch(started, Some(Call(ai, promptForAI, s.pendingImage)))
  }

  /** `handleSendMessage` up to the await. A refused send changes nothing
      and calls nothing. An accepted one keeps the transcript as a prefix and
      appends the user entry after it; it starts a call exactly when there
      is a client, on the substituted prompt and the staged image. */
  function HandleSendMessage(s: State, text: string, clock: Clock): (d: Dispatch)
    ensures !Accepts(s, text) ==> d.next == s && d.call == None
    ensures Accepts(s, text) ==>
      && IsPrefix(s.messages, d.next.messages)
      && |d.next.messages| > |s.messages|
      && d.next.messages[|s.messages|] == UserMessage(text, s.pendingImage, clock)
    ensures d.call.Some? <==> Accepts(s, text) && s.client.Some?
    ensures d.call.Some? ==>
      d.call.value == Call(s.client.value, PromptFor(text, s.pendingImage), s.pendingImage)
  {
    if s.isLoading then Dispatch(s, None)
    else
      var promptForAI := PromptFor(text, s.pendingImage);
      if Trim(promptForAI) == "" && !Truthy(s.pendingImage) then Dispatch(s, None)
      else StartSend(s, text, promptForAI, clock)
  }

  /** `handleCapture`: close the camera and stage the shot, replacing any
      earlier image. */
  function HandleCapture(s: State, dataUrl: string): (r: State)
    ensures r.pendingImage == Some(dataUrl) && !r.isCameraOpen && r.messages == s.messages
    ensures r.(isCameraOpen := s.isCameraOpen, pendingImage := s.pendingImage) == s
  {
    s.(isCameraOpen := false, pendingImage := Some(dataUrl))
  }

  /** The catch branch of `handleFileUpload`: one AI entry, staging untouched. */
  function FileError(s: State, clock: Clock): (r: State)
    ensures IsPrefix(s.messages, r.messages) && |r.messages| == |s.messages| + 1
    ensures r.messages[|s.messages|].sender == Ai && r.messages[|s.messages|].text == Some(FileErrorText)
    ensures r.pendingImage == s.pendingImage
    ensures r.(messages := s.messages) == s
  {
    s.(messages := s.messages + [AiText(Millis(clock.millis), FileErrorText, clock.iso)])
  }

  /** Both voice flags down: the no-client, microphone-failure, error and
      close paths of the voice session. */
  function StopVoice(s: State): (r: State)
    ensures !r.isLoading && !r.isListening && r.messages == s.messages
    ensures r.(isLoading := s.isLoading, isListening := s.isListening) == s
  {
    s.(isLoading := false, isListening := false)
  }

  /** `toggleVoiceChat` up to its await. When listening it only lowers
      `isListening` (the session reference it would drop is never set).
      Otherwise it raises both flags, lowers them again if there is no
      client, and with a client starts a fresh, empty accumulator. */
  function ToggleVoiceChat(s: State): (r: State)
    ensures r.messages == s.messages && r.pendingImage == s.pendingImage
    ensures s.isListening ==> !r.isListening && r.isLoading == s.isLoading
    ensures !s.isListening ==> (r.isListening <==> s.client.Some?) && (r.isLoading <==> s.client.Some?)
  {
    if s.isListening then s.(isListening := false)
    else
      var requesting := s.(isListening := true, isLoading := true);
      match s.client
      case None => StopVoice(requesting)
      case Some(_) => requesting.(inputTranscription := "")
  }

  /** `onmessage`: an input transcription replaces the accumulator; then,
      unless the inline-audio probe throws, a completed turn with an output
      transcription appends the trimmed accumulator as a USER entry and the
      output as an AI entry, and lowers both flags. */
  function OnLiveMessage(s: State, content: ServerContent, clock: Clock): (r: State)
    ensures IsPrefix(s.messages, r.messages)
    ensures |r.messages| == if CompletesTurn(content) then |s.messages| + 2 else |s.messages|
    ensures content.inputTranscription.Some? ==> r.inputTranscription == content.inputTranscription.value
  {
    var heard :=
      if content.inputTranscription.Some? then s.(inputTranscription := content.inputTranscription.value)
      else s;
    if ThrowsOnModelTurn(content) then heard
    else if content.turnComplete && content.outputTranscription.Some? then
      var user := Message(Millis(clock.millis), User, Text, Some(Trim(heard.inputTranscription)), None, clock.iso);
      var ai := AiText(Millis(clock.millis + 1), content.outputTranscription.value, clock.iso);
      heard.(messages := heard.messages + [user, ai], isLoading := false, isListening := false)
    else heard
  }

  /** One event, applied atomically. No event removes or edits an entry:
      the transcript only grows at the end, by at most two entries. */
  function Step(s: State, e: Event): (r: State)
    ensures IsPrefix(s.messages, r.messages)
    ensures |r.messages| <= |s.messages| + 2
  {
    match e
    case Mount(apiKey) => OnMount(s, apiKey)
    case Send(text, clock) => HandleSendMessage(s, text, clock).next
    case SendOk(reply, clock) => Settle(s, reply, clock)
    case SendFail(clock) => Settle(s, SendErrorText, clock)
    case OpenCamera => s.(isCameraOpen := true)
    case CloseCamera => s.(isCameraOpen := false)
    case Capture(dataUrl) => HandleCapture(s, dataUrl)
    case ClearPending => s.(pendingImage := None)
    case FileOk(dataUrl) => s.(pendingImage := Some(dataUrl))
    case FileFail(clock) => FileError(s, clock)
    case ToggleVoice => ToggleVoiceChat(s)
    case MicFail => StopVoice(s)
    case Live(content, clock) => OnLiveMessage(s, content, clock)
    case SessionError => StopVoice(s)
    case SessionClose => StopVoice(s)
  }

  /** A sequence of events applied in order. The transcript at the end
      extends the transcript at the start. */
  function Run(s: State, events: seq<Event>): (r: State)
    ensures IsPrefix(s.messages, r.messages)
    decreases |events|
  {
    if events == [] then s
    else
      var r := Run(Step(s, events[0]), events[1..]);
      assert r.messages[..|s.messages|] == r.messages[..|Step(s, events[0]).messages|][..|s.messages|];
      r
  }

  // ---------------------------------------------------------------------
  // Properties of the lifecycle

  /** From first render, whatever happens, the greeting stays first, so the
      transcript is never empty. */
  lemma TranscriptNeverEmpty(timestamp: string, events: seq<Event>)
    ensures |Run(Initial(timestamp), events).messages| >= 1
    ensures Run(Initial(timestamp), events).messages[0] == Greeting(timestamp)
  {
    var r := Run(Initial(timestamp), events);
    assert r.messages[0] == r.messages[..1][0];
  }

  /** A send while loading, or with blank text and no truthy image, changes
      nothing and starts no call. */
  lemma RefusedSendIsNoOp(s: State, text: string, clock: Clock)
    requires s.isLoading || (Trim(text) == "" && !Truthy(s.pendingImage))
    ensures Step(s, Send(text, clock)) == s
    ensures HandleSendMessage(s, text, clock).call == None
  {
  }

  /** The entry an accepted send appends, right after the old transcript,
      is the USER's raw text with the staged image as its URL, and is an
      IMAGE entry exactly when an image was pending. */
  lemma UserMessageShape(s: State, text: string, clock: Clock)
    requires Accepts(s, text)
    ensures |Step(s, Send(text, clock)).messages| > |s.messages|
    ensures var m := Step(s, Send(text, clock)).messages[|s.messages|];
      m.sender == User && m.text == Some(text) && m.imageUrl == s.pendingImage
      && (m.kind == Image <==> Truthy(s.pendingImage))
  {
  }

  /** An accepted send with a client appends exactly the user entry and sets
      `isLoading`; everything else, the staged image included, is kept until
      the answer arrives. */
  lemma AcceptedSendAppendsUserEntry(s: State, text: string, clock: Clock)
    requires Accepts(s, text) && s.client.Some?
    ensures Step(s, Send(text, clock)).messages == s.messages + [UserMessage(text, s.pendingImage, clock)]
    ensures Step(s, Send(text, clock)) == s.(messages := s.messages + [UserMessage(text, s.pendingImage, clock)],
                                             isLoading := true)
  {
  }

  /** Without a client an accepted send fails at once: the user entry, then
      the apology, and the cleanup of `finally`. */
  lemma AcceptedSendWithoutClient(s: State, text: string, clock: Clock)
    requires Accepts(s, text) && s.client.None?
    ensures Step(s, Send(text, clock)).messages
         == s.messages + [UserMessage(text, s.pendingImage, clock),
                          AiText(Millis(clock.millis + 1), SendErrorText, clock.iso)]
    ensures !Step(s, Send(text, clock)).isLoading && Step(s, Send(text, clock)).pendingImage == None
    ensures Step(s, Send(text, clock))
         == s.(messages := s.messages + [UserMessage(text, s.pendingImage, clock),
                                         AiText(Millis(clock.millis + 1), SendErrorText, clock.iso)],
               isLoading := false, pendingImage := None)
    ensures HandleSendMessage(s, text, clock).call == None
  {
  }

  /** The answer of a call, success or failure, appends exactly one AI text
      entry (the reply, or the fixed apology) and always lowers `isLoading`
      and clears the staged image; nothing else changes. */
  lemma ResolutionAppendsOneAnswer(s: State, e: Event)
    requires e.SendOk? || e.SendFail?
    ensures Step(s, e).messages
         == s.messages + [AiText(Millis(e.clock.millis + 1), if e.SendOk? then e.reply else SendErrorText, e.clock.iso)]
    ensures !Step(s, e).isLoading && Step(s, e).pendingImage == None
    ensures Step(s, e) == s.(messages := Step(s, e).messages, isLoading := false, pendingImage := None)
  {
    assert Step(s, e) == Settle(s, if e.SendOk? then e.reply else SendErrorText, e.clock);
  }

  /** A capture replaces whatever was staged and closes the camera, and
      changes nothing else. */
  lemma CaptureReplacesStaged(s: State, dataUrl: string)
    ensures Step(s, Capture(dataUrl)).pendingImage == Some(dataUrl)
    ensures !Step(s, Capture(dataUrl)).isCameraOpen
    ensures Step(s, Capture(dataUrl)).messages == s.messages
    ensures Step(s, Capture(dataUrl)) == s.(isCameraOpen := false, pendingImage := Some(dataUrl))
  {
  }

  /** Clearing empties the slot, and clearing twice is clearing once. */
  lemma ClearPendingIdempotent(s: State)
    ensures Step(s, ClearPending).pendingImage == None
    ensures Step(Step(s, ClearPending), ClearPending) == Step(s, ClearPending)
    ensures s.pendingImage == None ==> Step(s, ClearPending) == s
  {
  }

  /** A decoded file is staged, replacing any earlier image. */
  lemma FileOkStages(s: State, dataUrl: string)
    ensures Step(s, FileOk(dataUrl)) == s.(pendingImage := Some(dataUrl))
  {
  }

  /** A failed decode appends the fixed file-error entry and leaves the
      staged image, whatever it was, in place; nothing else changes. */
  lemma FileFailKeepsStaged(s: State, clock: Clock)
    ensures Step(s, FileFail(clock)).messages == s.messages + [AiText(Millis(clock.millis), FileErrorText, clock.iso)]
    ensures Step(s, FileFail(clock)).pendingImage == s.pendingImage
    ensures Step(s, FileFail(clock)) == s.(messages := s.messages + [AiText(Millis(clock.millis), FileErrorText, clock.iso)])
  {
  }

  /** Toggling voice on: with a client both flags go up and a fresh, empty
      accumulator starts; without one both flags end down. Nothing is
      appended either way. */
  lemma VoiceOn(s: State)
    requires !s.isListening
    ensures s.client.Some? ==>
      Step(s, ToggleVoice) == s.(isListening := true, isLoading := true, inputTranscription := "")
    ensures s.client.None? ==> Step(s, ToggleVoice) == s.(isListening := false, isLoading := false)
  {
  }

  /** Toggling voice off lowers `isListening` only; `isLoading` stays as it
      was. */
  lemma VoiceOffOnlyLowersListening(s: State)
    requires s.isListening
    ensures Step(s, ToggleVoice) == s.(isListening := false)
  {
  }

  /** A microphone failure, a session error and a session close all lower
      both flags and append nothing. */
  lemma VoiceAbortAppendsNothing(s: State, e: Event)
    requires e.MicFail? || e.SessionError? || e.SessionClose?
    ensures Step(s, e) == s.(isLoading := false, isListening := false)
  {
  }

  /** An input transcription replaces the accumulator, whatever it held,
      rather than adding to it. */
  lemma InputTranscriptionOverwrites(s: State, content: ServerContent, clock: Clock)
    requires content.inputTranscription.Some?
    requires !CompletesTurn(content)
    ensures Step(s, Live(content, clock)) == s.(inputTranscription := content.inputTranscription.value)
  {
  }

  /** A message whose model turn lacks `parts` throws in the inline-audio
      probe: only its input transcription takes effect, even when it also
      completes the turn, so nothing is appended and both flags stay as they
      were. */
  lemma ModelTurnWithoutPartsStops(s: State, content: ServerContent, clock: Clock)
    requires ThrowsOnModelTurn(content)
    ensures Step(s, Live(content, clock)) == s.(inputTranscription := content.inputTranscription.GetOr(s.inputTranscription))
  {
  }

  /** A completed turn with an output transcription appends the trimmed
      accumulator (as updated by the same message) as a USER entry, then the
      output as an AI entry, and lowers both flags; the accumulator keeps
      its updated value and nothing else changes. */
  lemma TurnCompleteAppendsExchange(s: State, content: ServerContent, clock: Clock)
    requires CompletesTurn(content)
    ensures Step(s, Live(content, clock)).messages
         == s.messages + [Message(Millis(clock.millis), User, Text,
                                  Some(Trim(content.inputTranscription.GetOr(s.inputTranscription))), None, clock.iso),
                          AiText(Millis(clock.millis + 1), content.outputTranscription.value, clock.iso)]
    ensures !Step(s, Live(content, clock)).isLoading && !Step(s, Live(content, clock)).isListening
    ensures Step(s, Live(content, clock)).pendingImage == s.pendingImage
    ensures var acc := content.inputTranscription.GetOr(s.inputTranscription);
      Step(s, Live(content, clock))
      == s.(messages := s.messages + [Message(Millis(clock.millis), User, Text, Some(Trim(acc)), None, clock.iso),
                                      AiText(Millis(clock.millis + 1), content.outputTranscription.value, clock.iso)],
            isLoading := false, isListening := false, inputTranscription := acc)
  {
    var heard := s.(inputTranscription := content.inputTranscription.GetOr(s.inputTranscription));
    assert Step(s, Live(content, clock)) == OnLiveMessage(heard, content.(inputTranscription := None), clock);
  }

  /** The USER entry of a completed voice turn holds an already trimmed
      text: trimming it again changes nothing. */
  lemma VoiceEntryIsTrimmed(s: State, content: ServerContent, clock: Clock)
    requires CompletesTurn(content)
    ensures |Step(s, Live(content, clock)).messages| > |s.messages|
    ensures var m := Step(s, Live(content, clock)).messages[|s.messages|];
      m.sender == User && m.text.Some? && Trim(m.text.value) == m.text.value
  {
    TurnCompleteAppendsExchange(s, content, clock);
    TrimIdempotent(content.inputTranscription.GetOr(s.inputTranscription));
  }

  /** A live message that does not complete a turn, including a completed
      turn whose model turn lacks parts (the handler throws first), appends
      nothing and leaves both flags up or down as they were. */
  lemma LiveMessageWithoutTurnAppendsNothing(s: State, content: ServerContent, clock: Clock)
    requires !CompletesTurn(content)
    ensures Step(s, Live(content, clock)).messages == s.messages
    ensures Step(s, Live(content, clock)).isLoading == s.isLoading
    ensures Step(s, Live(content, clock)).isListening == s.isListening
  {
  }

  /** The mount effect creates a client exactly when there was none and the
      key is present and non-empty. */
  lemma MountCreatesClient(s: State, apiKey: Option<string>)
    requires s.client.None?
    ensures Step(s, Mount(apiKey)).client.Some? <==> Truthy(apiKey)
    ensures Step(s, Mount(apiKey)).client.Some? ==> Step(s, Mount(apiKey)).client.value.apiKey == apiKey.value
  {
  }

  /** The events that can lower `isLoading`. */
  predicate MayLowerLoading(e: Event) {
    || e.SendOk? || e.SendFail? || e.ToggleVoice? || e.MicFail? || e.SessionError? || e.SessionClose?
    || (e.Live? && CompletesTurn(e.content))
  }

  /** The loading flag gates sends: once it is up, and until an event that
      may lower it, it stays up, every send is dropped, and the only entries
      appended are the assistant's (file-decode errors). */
  lemma {:induction false} LoadingGatesSends(s: State, events: seq<Event>)
    requires s.isLoading
    requires forall i :: 0 <= i < |events| ==> !MayLowerLoading(events[i])
    ensures Run(s, events).isLoading
    ensures forall i :: |s.messages| <= i < |Run(s, events).messages| ==> Run(s, events).messages[i].sender == Ai
    decreases |events|
  {
    if events != [] {
      var t := Step(s, events[0]);
      assert !MayLowerLoading(events[0]);
      assert t.isLoading;
      assert forall i :: |s.messages| <= i < |t.messages| ==> t.messages[i].sender == Ai;
      var rest := events[1..];
      assert forall i :: 0 <= i < |rest| ==> !MayLowerLoading(rest[i]) by {
        forall i | 0 <= i < |rest| ensures !MayLowerLoading(rest[i]) {
          assert rest[i] == events[i + 1];
        }
      }
      LoadingGatesSends(t, rest);
      var r := Run(t, rest);
      assert r == Run(s, events);
      forall i | |s.messages| <= i < |r.messages| ensures r.messages[i].sender == Ai {
        if i < |t.messages| {
          assert r.messages[i] == r.messages[..|t.messages|][i];
        }
      }
    }
  }
}
