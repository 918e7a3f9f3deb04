/**
  The records of the chat application.  A `Date` is modelled as a clock
  reading in milliseconds, a natural number.
 */
module Types {

  /** Who wrote a message: the `type` field, `'user' | 'assistant'`. */
  datatype MessageType = User | Assistant

  /** One turn of a conversation. */
  datatype ChatMessage = ChatMessage(id: string, kind: MessageType, content: string, timestamp: nat)

  /** A conversation: the unit the database stores, keyed by `id`. */
  datatype ChatSession = ChatSession(
    id: string,
    title: string,
    messages: seq<ChatMessage>,
    createdAt: nat,
    updatedAt: nat,
    isEditable: bool)

  /** The generation parameters; only compared, never computed with, so `real`. */
  datatype AppSettings = AppSettings(temperature: real, maxOutputTokens: real, topP: real, topK: real)
}
