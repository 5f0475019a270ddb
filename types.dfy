/**
 * The data model of the chat front-end (types.ts): messages, the
 * conversation they form, and the controller's activity.
 */
module Types {
  import opened Wrappers

  /** Who produced a turn: exactly two values. */
  datatype Role = User | Model

  /** The unconcatenated fields of a user's submission, kept for display. */
  datatype StructuredInput = StructuredInput(topic: string, perspective: string)

  /**
   * One turn of the conversation. `timestamp` is a millisecond count;
   * nothing in the code makes it unique or increasing, and neither is `id`.
   */
  datatype Message = Message(
    id: string,
    role: Role,
    content: string,
    timestamp: int,
    structuredInput: Option<StructuredInput>)

  /** A chat session is an ordered list of messages and nothing else. */
  datatype ChatSession = ChatSession(messages: seq<Message>)

  /** The controller's activity; the code only ever enters Idle and Thinking. */
  datatype LoadingState = Idle | Thinking | Streaming | Error
}
