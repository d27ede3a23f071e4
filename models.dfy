/** The persisted records of the backend: one chat turn and one conversation. */
module Models {

  /** An instant as the store records it; clock readings are parameters of the handlers. */
  type Time = int

  /** One stored turn; `isUser` is false for the assistant's reply. */
  datatype ChatMessage = ChatMessage(text: string, isUser: bool, imageUrl: string, timestamp: Time)

  /** A conversation document, keyed by the client-supplied `conversationId`. */
  datatype Conversation = Conversation(
    conversationId: string,
    messages: seq<ChatMessage>,
    model: string,
    createdAt: Time)
}
