/** How App.tsx, components/InputArea.tsx and services/geminiService.ts fit
    together: App renders the bar with `disabled = isLoading`, passes its
    staged image down, and hands each accepted send to `generateAnswer`. */
module Wiring {
  import opened Wrappers
  import opened JsText
  import opened Types
  import opened GeminiService
  import opened InputArea
  import opened App

  /** The controls as App renders them for state `s` and draft `draft`. */
  function ControlsIn(s: State, draft: string): Controls {
    ControlsFor(s.isLoading, s.isListening, draft, s.pendingImage)
  }

  /** The three send guards agree: App accepts a text exactly when the send
      button is enabled for it, and exactly when the bar is enabled and
      `handleSend` would forward it. */
  lemma SendGuardsAgree(s: State, draft: string)
    ensures Accepts(s, draft) <==> !ControlsIn(s, draft).send
    ensures Accepts(s, draft) <==> !s.isLoading && HandleSend(draft, s.pendingImage).forwarded.Some?
  {
  }

  /** The whole effect of one send gesture on the bar and the app: the
      draft left in the box, the next app state, and the call started. */
  datatype Gesture = Gesture(draft: string, next: State, call: Option<Call>)

  /** What `handleSend` does once wired to `handleSendMessage`. */
  function SubmitDraft(s: State, draft: string, clock: Clock): (g: Gesture)
    ensures HandleSend(draft, s.pendingImage).forwarded.None? ==> g == Gesture(draft, s, None)
  {
    var out := HandleSend(draft, s.pendingImage);
    match out.forwarded
    case None => Gesture(out.draft, s, None)
    case Some(text) =>
      var d := HandleSendMessage(s, text, clock);
      Gesture(out.draft, d.next, d.call)
  }

  /** A click on the send button: nothing happens while it is disabled. */
  function ClickSend(s: State, draft: string, clock: Clock): (g: Gesture)
    ensures ControlsIn(s, draft).send ==> g == Gesture(draft, s, None)
  {
    if ControlsIn(s, draft).send then Gesture(draft, s, None) else SubmitDraft(s, draft, clock)
  }

  /** A click is all or nothing: either the draft is kept and the app does
      not change, or the draft is cleared and the app appends the raw draft
      as a user entry. The bar never discards a draft the app then drops. */
  lemma ClickSendAllOrNothing(s: State, draft: string, clock: Clock)
    ensures !Accepts(s, draft) ==> ClickSend(s, draft, clock) == Gesture(draft, s, None)
    ensures Accepts(s, draft) ==>
      && ClickSend(s, draft, clock).draft == ""
      && ClickSend(s, draft, clock) == SubmitDraft(s, draft, clock)
      && ClickSend(s, draft, clock).next.messages[|s.messages|] == UserMessage(draft, s.pendingImage, clock)
  {
  }

  /** Enter can only reach the text box while it is enabled, that is while
      not loading; there, Enter without Shift is the same all-or-nothing
      send as the button. */
  lemma EnterAgreesWithButton(s: State, draft: string, clock: Clock)
    requires !ControlsIn(s, draft).textarea
    ensures HandleKeyDown(EnterKey, false, draft, s.pendingImage).send.draft == ClickSend(s, draft, clock).draft
    ensures SubmitDraft(s, draft, clock) == ClickSend(s, draft, clock)
  {
  }

  /** While listening the stop control is enabled, and using it stops
      listening. */
  lemma StopReachableWhileListening(s: State, draft: string)
    requires s.isListening
    ensures !ControlsIn(s, draft).voice
    ensures !Step(s, ToggleVoice).isListening
  {
  }

  /** The request a send with a staged `<header>,<payload>` image produces:
      two parts, the JPEG-declared payload first and the prompt second. */
  lemma ImageSendRequest(s: State, text: string, clock: Clock, header: string, payload: string)
    requires !s.isLoading && s.client.Some?
    requires s.pendingImage == Some(header + "," + payload)
    requires ',' !in header && ',' !in payload
    ensures HandleSendMessage(s, text, clock).call.Some?
    ensures var call := HandleSendMessage(s, text, clock).call.value;
      BuildRequest(call.prompt, call.imageBase64).contents
        == Parts([InlineData(ImageMimeType, Some(payload)), TextPart(PromptFor(text, s.pendingImage))])
  {
    ImagePayloadStripsPrefix(header, payload);
  }

  /** A send with nothing truthy staged asks the model the raw text alone. */
  lemma TextSendRequest(s: State, text: string, clock: Clock)
    requires Accepts(s, text) && s.client.Some? && !Truthy(s.pendingImage)
    ensures HandleSendMessage(s, text, clock).call.Some?
    ensures var call := HandleSendMessage(s, text, clock).call.value;
      BuildRequest(call.prompt, call.imageBase64) == Request(ModelId, PromptText(text), SystemInstruction)
  {
  }

  /** The event with which an awaited `generateAnswer` resumes the send. */
  function Resumption(answer: Result<string, string>, clock: Clock): (e: Event)
    ensures e.SendOk? <==> answer.Success?
    ensures e.SendOk? ==> e.reply == answer.value
  {
    match answer
    case Success(text) => SendOk(text, clock)
    case Failure(_) => SendFail(clock)
  }

  /** End to end: the answer entry of a started call holds the remote reply
      when the remote call succeeds, and the apology, never the service's
      error text, when it fails. */
  lemma AnswerEntryOfCall<E>(s: State, call: Call, remote: (Client, Request) -> Result<string, E>, clock: Clock)
    ensures var r := Step(s, Resumption(GenerateAnswer(call.client, call.prompt, call.imageBase64, remote), clock));
      var reply := remote(call.client, BuildRequest(call.prompt, call.imageBase64));
      && |r.messages| == |s.messages| + 1
      && r.messages[|s.messages|].text == Some(if reply.Success? then reply.value else SendErrorText)
      && !r.isLoading && r.pendingImage == None
  {
  }

  /** Scenario: an image is staged and an empty text is sent. The model is
      asked the default description prompt, while the user entry keeps the
      empty text, is of kind IMAGE and shows the staged image. */
  lemma ImageOnlySend(s: State, image: string, clock: Clock)
    requires !s.isLoading && s.client.Some? && image != ""
    ensures var staged := Step(s, FileOk(image));
      var d := HandleSendMessage(staged, "", clock);
      && d.call.Some? && d.call.value.prompt == DefaultImagePrompt
      && d.next.messages == s.messages + [Message(Millis(clock.millis), User, Image, Some(""), Some(image), clock.iso)]
  {
  }
}
