/** The parts of a Telegram update that the handlers look at, and what a
    handler does in return. */
module Telegram {
  import opened Wrappers

  /** The chat a message was posted in: its id, whether its type is
      `SUPERGROUP`, and whether topics (forum mode) are enabled. */
  datatype Chat = Chat(id: int, isSupergroup: bool, isForum: bool)

  /** The message a reply answers: its `is_topic_message` flag and its
      `message_thread_id`. */
  datatype Replied = Replied(isTopicMessage: bool, threadId: Option<int>)

  /** An inbound message: chat, `message_thread_id`, `is_topic_message`,
      `reply_to_message` and `text`. */
  datatype Msg = Msg(
    chat: Chat,
    threadId: Option<int>,
    isTopicMessage: bool,
    replyTo: Option<Replied>,
    text: Option<string>)

  /** Python truthiness of an optional thread id: `None` and `0` are falsy. */
  predicate Truthy(id: Option<int>)
  {
    id.Some? && id.value != 0
  }

  /** Python truthiness of an optional text: `None` and `""` are falsy. */
  predicate HasText(text: Option<string>)
  {
    text.Some? && text.value != []
  }
}
