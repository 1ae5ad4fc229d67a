/** The shape of a chat-completion exchange as the services use it: the
    messages sent and what came back. The remote model itself is a
    parameter of every operation that calls it. */
module Completions {
  import opened Wrappers

  datatype ChatMessage = ChatMessage(role: string, content: string)

  /** The outcome of one chat-completion call: the call raised, or it
      returned the first choice's content (none when there was no choice or
      the choice carried no content). */
  datatype Completion = CallFailed | Completed(content: Option<string>)
}
