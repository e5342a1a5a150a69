/** The chat message record shared by the main chat screen, the saved
    conversation list and the engineer chatbot. Timestamps are left out. */
module Messages {

  datatype Sender = FromUser | FromBot

  /** One transcript entry; `tools`, `examples` and `actions` are the
      optional string lists of the source, empty when absent. */
  datatype Message = Message(
    id: string,
    sender: Sender,
    content: string,
    tools: seq<string>,
    examples: seq<string>,
    actions: seq<string>)

  /** A plain text message with none of the optional lists. */
  function TextMessage(id: string, sender: Sender, content: string): Message {
    Message(id, sender, content, [], [], [])
  }
}
