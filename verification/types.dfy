/** The chat message record shared by every component (types.ts). */
module Types {
  import opened Wrappers

  datatype Sender = User | Ai

  datatype MessageType = Text | Image

  /** A message id. The seed greeting carries the literal id '1'; every other
      message carries the decimal rendering of a millisecond clock reading,
      kept here as the number itself. Ids are not guaranteed unique. */
  datatype MessageId = Seed | Millis(ms: int)

  /** One reading of the wall clock: `Date.now()` and the ISO-8601 text of
      `new Date().toISOString()`, both opaque to the model. */
  datatype Clock = Clock(millis: int, iso: string)

  /** A transcript entry. `text` and `imageUrl` are optional in the record;
      `imageUrl` holds a data URI when present. */
  datatype Message = Message(
    id: MessageId,
    sender: Sender,
    kind: MessageType,
    text: Option<string>,
    imageUrl: Option<string>,
    timestamp: string)

  /** A plain-text message from the assistant, as every AI entry is built. */
  function AiText(id: MessageId, text: string, timestamp: string): Message {
    Message(id, Ai, Text, Some(text), None, timestamp)
  }
}
