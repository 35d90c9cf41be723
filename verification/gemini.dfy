/** The request side of services/geminiService.ts: the API-key check that
    creates a client, and the shaping of a `generateContent` request from a
    prompt and an optional data URI. The remote call itself is a parameter. */
module GeminiService {
  import opened Wrappers
  import opened JsText

  const ModelId: string := "gemini-2.5-flash"

  const SystemInstruction: string :=
    "You are Klug AI, a friendly and helpful study buddy. Your responses should be short, encouraging, "
    + "and use emojis to convey a friendly tone, like you're texting a friend. "
    + "\U{1F9D1}\U{200D}\U{1F3EB}\U{2728}"

  /** The mime type every inline image is declared with, whatever it really is. */
  const ImageMimeType: string := "image/jpeg"

  /** The one error every failed call is rethrown as. */
  const FailureMessage: string := "Failed to get a response from the AI."

  const MissingKeyMessage: string := "API_KEY environment variable not set"

  /** A `GoogleGenAI` client; all the model knows of it is its key. */
  datatype Client = Client(apiKey: string)

  /** `initAI`: a client for a present, non-empty key; otherwise the thrown
      configuration error. */
  function InitAI(apiKey: Option<string>): (r: Result<Client, string>)
    ensures r.Success? <==> apiKey.Some? && apiKey.value != ""
    ensures r.Success? ==> r.value.apiKey == apiKey.value
    ensures r.Failure? ==> r.error == MissingKeyMessage
  {
    match apiKey
    case None => Failure(MissingKeyMessage)
    case Some(key) => if key == "" then Failure(MissingKeyMessage) else Success(Client(key))
  }

  datatype Part =
    | InlineData(mimeType: string, data: Option<string>)  // data is undefined when the URI has no comma
    | TextPart(text: string)

  /** `contents` is either a list of parts or a bare prompt string. */
  datatype Contents = Parts(parts: seq<Part>) | PromptText(text: string)

  datatype Request = Request(model: string, contents: Contents, systemInstruction: string)

  /** The base64 payload sent for an image: the second comma-separated
      segment of the data URI (`split(',')[1]`). */
  function ImagePayload(dataUri: string): (r: Option<string>)
    ensures r.Some? ==> ',' !in r.value
  {
    SplitAt(dataUri, ',', 1)
  }

  /** For a data URI `<header>,<payload>` with no other comma, the payload is
      exactly what follows the header and its comma. */
  lemma ImagePayloadStripsPrefix(header: string, payload: string)
    requires ',' !in header && ',' !in payload
    ensures ImagePayload(header + "," + payload) == Some(payload)
  {
  }

  /** A string with no comma has no payload segment at all. */
  lemma ImagePayloadWithoutComma(dataUri: string)
    requires ',' !in dataUri
    ensures ImagePayload(dataUri) == None
  {
  }

  /** The request `generateAnswer` sends. The image branch is taken on a
      truthy `imageBase64`, so "" counts as no image. */
  function BuildRequest(prompt: string, imageBase64: Option<string>): (r: Request)
    ensures r.model == ModelId && r.systemInstruction == SystemInstruction
    ensures r.contents.Parts? <==> Truthy(imageBase64)
  {
    if Truthy(imageBase64) then
      var imagePart := InlineData(ImageMimeType, ImagePayload(imageBase64.value));
      var textPart := TextPart(prompt);
      Request(ModelId, Parts([imagePart, textPart]), SystemInstruction)
    else
      Request(ModelId, PromptText(prompt), SystemInstruction)
  }

  /** What a request asks the model, read back from it: the bare prompt, or
      the text of a trailing text part. */
  function PromptOf(r: Request): Option<string> {
    match r.contents
    case PromptText(t) => Some(t)
    case Parts(ps) => if |ps| > 0 && ps[|ps| - 1].TextPart? then Some(ps[|ps| - 1].text) else None
  }

  /** The image a request carries, read back from it: a leading inline part. */
  function ImageOf(r: Request): Option<Part> {
    match r.contents
    case PromptText(_) => None
    case Parts(ps) => if |ps| > 0 && ps[0].InlineData? then Some(ps[0]) else None
  }

  /** Reading a built request back recovers its inputs: the prompt always,
      the image exactly when one was truthy, as the two parts
      [inline image, text] in that order. */
  lemma BuildRequestRoundTrip(prompt: string, imageBase64: Option<string>)
    ensures PromptOf(BuildRequest(prompt, imageBase64)) == Some(prompt)
    ensures ImageOf(BuildRequest(prompt, imageBase64)).Some? <==> Truthy(imageBase64)
    ensures Truthy(imageBase64) ==>
      BuildRequest(prompt, imageBase64).contents.parts
        == [ImageOf(BuildRequest(prompt, imageBase64)).value, TextPart(prompt)]
    ensures Truthy(imageBase64) ==>
      ImageOf(BuildRequest(prompt, imageBase64))
        == Some(InlineData(ImageMimeType, ImagePayload(imageBase64.value)))
    ensures !Truthy(imageBase64) ==> BuildRequest(prompt, imageBase64).contents == PromptText(prompt)
  {
  }

  /** `generateAnswer`: send the built request through `remote` (the SDK
      call); a reply passes through, and any failure becomes the one fixed
      error. */
  function GenerateAnswer<E>(client: Client, prompt: string, imageBase64: Option<string>,
                             remote: (Client, Request) -> Result<string, E>): (r: Result<string, string>)
    ensures r.Success? <==> remote(client, BuildRequest(prompt, imageBase64)).Success?
    ensures r.Success? ==> r.value == remote(client, BuildRequest(prompt, imageBase64)).value
    ensures r.Failure? ==> r.error == FailureMessage
  {
    match remote(client, BuildRequest(prompt, imageBase64))
    case Success(text) => Success(text)
    case Failure(_) => Failure(FailureMessage)
  }
}
