/** The decisions components/InputArea.tsx makes about the draft text: when
    a send is forwarded, which keys send, what a file selection forwards, and
    which controls are disabled. `disabled` is the parent's `isLoading`. */
module InputArea {
  import opened Wrappers
  import opened JsText

  /** The guard of `handleSend`: something to send, text or image. */
  predicate HasContent(draft: string, pendingImage: Option<string>) {
    Trim(draft) != "" || Truthy(pendingImage)
  }

  /** What `handleSend` does: the text forwarded to `onSendMessage`, if
      any, and the draft left in the text box. */
  datatype SendOutcome = SendOutcome(forwarded: Option<string>, draft: string)

  /** `handleSend`: forward the raw, untrimmed draft and clear it when there
      is content; otherwise keep the draft and forward nothing. */
  function HandleSend(draft: string, pendingImage: Option<string>): (r: SendOutcome)
    ensures r.forwarded.Some? <==> !AllWhitespace(draft) || Truthy(pendingImage)
    ensures r.forwarded.Some? ==> r.forwarded.value == draft && r.draft == ""
    ensures r.forwarded.None? ==> r.draft == draft
  {
    if HasContent(draft, pendingImage) then SendOutcome(Some(draft), "") else SendOutcome(None, draft)
  }

  const EnterKey: string := "Enter"

  /** What `handleKeyDown` does: whether the default action is suppressed,
      and the send it performs (a no-op outcome when it does not send). */
  datatype KeyOutcome = KeyOutcome(preventDefault: bool, send: SendOutcome)

  /** `handleKeyDown`: Enter without Shift suppresses the newline and sends;
      any other key, or Shift+Enter, leaves the draft alone. */
  function HandleKeyDown(key: string, shiftKey: bool, draft: string, pendingImage: Option<string>): (r: KeyOutcome)
    ensures r.preventDefault <==> key == EnterKey && !shiftKey
    ensures r.send.forwarded.Some? ==> r.preventDefault
    ensures !r.preventDefault ==> r.send.draft == draft
  {
    if key == EnterKey && !shiftKey then KeyOutcome(true, HandleSend(draft, pendingImage))
    else KeyOutcome(false, SendOutcome(None, draft))
  }

  /** What `handleFileSelect` does: the file handed to `onFileUpload`, if
      any, and the value the file input is reset to. */
  datatype FileSelectOutcome<F> = FileSelectOutcome(upload: Option<F>, inputValue: string)

  /** `handleFileSelect`: `files` is null or the selected list; only its
      first entry is ever forwarded, and the input is always reset to ''. */
  function HandleFileSelect<F>(files: Option<seq<F>>): (r: FileSelectOutcome<F>)
    ensures r.upload.Some? <==> files.Some? && |files.value| > 0
    ensures r.upload.Some? ==> r.upload.value == files.value[0]
    ensures r.inputValue == ""
  {
    match files
    case Some(list) => if |list| > 0 then FileSelectOutcome(Some(list[0]), "") else FileSelectOutcome(None, "")
    case None => FileSelectOutcome(None, "")
  }

  /** The `disabled` attribute of every control. `removeImage` is `None`
      when the preview (and its button) is not rendered. */
  datatype Controls = Controls(
    camera: bool,
    attach: bool,
    voice: bool,
    textarea: bool,
    send: bool,
    removeImage: Option<bool>)

  function ControlsFor(disabled: bool, isListening: bool, draft: string, pendingImage: Option<string>): (c: Controls)
    ensures c.send <==> disabled || (AllWhitespace(draft) && !Truthy(pendingImage))
    ensures c.voice <==> disabled && !isListening
    ensures c.camera == disabled && c.attach == disabled && c.textarea == disabled
    ensures c.removeImage.Some? <==> Truthy(pendingImage)
    ensures c.removeImage.Some? ==> c.removeImage.value == disabled
  {
    Controls(
      camera := disabled,
      attach := disabled,
      voice := disabled && !isListening,
      textarea := disabled,
      send := (Trim(draft) == "" && !Truthy(pendingImage)) || disabled,
      removeImage := if Truthy(pendingImage) then Some(disabled) else None)
  }

  /** The send button is enabled exactly when `handleSend` would forward and
      the bar is not disabled. */
  lemma SendButtonAgreesWithHandleSend(disabled: bool, isListening: bool, draft: string, pendingImage: Option<string>)
    ensures !ControlsFor(disabled, isListening, draft, pendingImage).send
        <==> !disabled && HandleSend(draft, pendingImage).forwarded.Some?
  {
  }

  /** While listening, the voice button (the stop control) is never disabled. */
  lemma StopAlwaysReachable(disabled: bool, draft: string, pendingImage: Option<string>)
    ensures !ControlsFor(disabled, true, draft, pendingImage).voice
  {
  }

  /** Enter without Shift behaves exactly like a click on send. */
  lemma EnterIsSend(draft: string, pendingImage: Option<string>)
    ensures HandleKeyDown(EnterKey, false, draft, pendingImage).send == HandleSend(draft, pendingImage)
  {
  }
}
