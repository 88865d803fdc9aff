/**
  Chat messages and the ordered, append-only session history that holds them.
  A message's creation time is not modelled: nothing in the session logic reads it.
 */
module Messages {

  /** The three roles the chat service ever writes into a session. */
  datatype Role = System | User | Assistant

  /** One message of a conversation. */
  datatype ChatMessage = ChatMessage(role: Role, content: string)

  /** A conversation: its identifier and its messages, oldest first. */
  class ChatSession {
    const sessionId: string
    var messages: seq<ChatMessage>

    /** A new session has the given identifier and no messages. */
    constructor (id: string)
      ensures sessionId == id && messages == []
    {
      sessionId := id;
      messages := [];
    }

    /**
      Appends one message at the end. The earlier messages stay as they are and
      nothing is dropped: the history is never trimmed.
     */
    method Add(role: Role, content: string)
      modifies this`messages
      ensures messages == old(messages) + [ChatMessage(role, content)]
      // The three clauses below follow from the one above; they spell out its
      // consequences for callers.
      ensures |messages| == |old(messages)| + 1
      ensures messages[..|old(messages)|] == old(messages)
      ensures messages[|messages| - 1].role == role && messages[|messages| - 1].content == content
    {
      messages := messages + [ChatMessage(role, content)];
    }

    /** Empties the history, as the reset endpoint does; the identifier is kept. */
    method Clear()
      modifies this`messages
      ensures messages == []
    {
      messages := [];
    }
  }
}
