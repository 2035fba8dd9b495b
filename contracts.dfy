/** The records exchanged between the browser client, the hubs and the completion
    provider: the wire contract of the chat relay. */
module Contracts {

  /** A value that may be absent: a C# `null` or a TypeScript `undefined`. */
  datatype Option<+T> = None | Some(value: T) {
    /** `x ?? default` */
    function GetOr(default: T): T {
      match this
      case Some(v) => v
      case None => default
    }
  }

  /** One earlier exchange as the server receives it: what the user wrote and
      the text that came back. */
  datatype Conversation = Conversation(message: string, response: string)

  /** The body of a submission: the new input and the earlier exchanges. */
  datatype ChatRequest = ChatRequest(input: string, previousConversations: seq<Conversation>)

  /** The roles the hubs tag messages with. The assistant's earlier replies are
      added with the system role, so no assistant role is ever produced. */
  datatype Role = SystemRole | UserRole

  /** One role-tagged entry of the history handed to the completion provider. */
  datatype ChatMessage = ChatMessage(role: Role, content: string)

  /** The calls a hub makes on its caller's connection. */
  datatype ClientEvent =
    | ReceiveResponse(response: string)
    | ReceiveError(error: string)
    | NotifyDone

  /** The identity of one client connection. */
  type ConnectionId = string
}
