/** The value entities of the session: messages, conversations, model
    descriptions, requests handed to workers and feedback entries
    (src/main.rs:32-78). */
module Entities {

  datatype Option<+T> = None | Some(value: T) {
    /** `Option::unwrap_or` */
    function GetOr(default: T): T {
      match this
      case Some(v) => v
      case None => default
    }
  }

  datatype Result<+T, +E> = Ok(value: T) | Err(error: E)

  /** The source stores the role as the string "user" or "assistant"; no
      other value is ever written. */
  datatype Role = User | Assistant

  datatype Message = Message(role: Role, content: string)

  datatype Conversation = Conversation(id: string, name: string, messages: seq<Message>)

  datatype ModelInfo = ModelInfo(alias: string, fullName: string)

  /** What a worker thread captures when `send_message` spawns it. */
  datatype Request = Request(prompt: string, modelAlias: string)

  datatype InputMode = Normal | Editing

  /** `AwaitingRemoteCommand` is declared by the source but never assigned. */
  datatype AppState = Normal | Thinking | AwaitingRemoteCommand

  datatype FeedbackKind = Positive | Negative

  /** `expiresAt` is an absolute time in milliseconds. */
  datatype Feedback = Feedback(message: string, kind: FeedbackKind, expiresAt: int)

  /** `conversation.messages.push(m)` */
  function WithMessage(c: Conversation, m: Message): (d: Conversation)
    ensures d.id == c.id && d.name == c.name
    ensures |d.messages| == |c.messages| + 1 && d.messages[|c.messages|] == m
    ensures d.messages[..|c.messages|] == c.messages
  {
    c.(messages := c.messages + [m])
  }
}
