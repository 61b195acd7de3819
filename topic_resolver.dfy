/** `_get_topic_id` of telegram-bot.py: the topic a message belongs to. */
module TopicResolver {
  import opened Wrappers
  import opened Telegram

  /** Whether the chat is a supergroup with topics enabled. */
  predicate IsForum(chat: Chat)
  {
    chat.isSupergroup && chat.isForum
  }

  /** The topic id of `m`: `None` outside forums, `1` for the General topic,
      otherwise a thread id taken from the replied-to message or from `m`. */
  function TopicId(m: Msg): (r: Option<int>)
    ensures r.None? <==> !IsForum(m.chat)
    ensures r.Some? ==> r.value != 0
    ensures r.Some? ==> || r == Some(1)
                        || (m.replyTo.Some? && r == m.replyTo.value.threadId)
                        || r == m.threadId
  {
    if !IsForum(m.chat) then None
    else if m.replyTo.Some? && m.replyTo.value.isTopicMessage && Truthy(m.replyTo.value.threadId) then
      m.replyTo.value.threadId
    else if m.replyTo.Some? && !m.replyTo.value.isTopicMessage then Some(1)
    else if m.isTopicMessage && Truthy(m.threadId) then m.threadId
    else Some(1)
  }

  /** In a forum, a reply to a message outside any topic belongs to the
      General topic, whatever the reply's own flags and thread id say. */
  lemma ReplyToPlainIsGeneral(m: Msg)
    requires IsForum(m.chat) && m.replyTo.Some? && !m.replyTo.value.isTopicMessage
    ensures TopicId(m) == Some(1)
    ensures forall t, id :: TopicId(m.(isTopicMessage := t, threadId := id)) == Some(1)
  {
  }

  /** A reply to a topic message whose thread id is missing or `0` resolves as
      the same message would without the reply. */
  lemma FalsyRepliedThreadFallsThrough(m: Msg)
    requires m.replyTo.Some? && m.replyTo.value.isTopicMessage && !Truthy(m.replyTo.value.threadId)
    ensures TopicId(m) == TopicId(m.(replyTo := None))
  {
  }

  /** In a forum, a message that is not a reply belongs to its own thread
      when it is a topic message with a thread id other than `0`, and to the
      General topic otherwise. */
  lemma NonReplyUsesOwnThread(m: Msg)
    requires IsForum(m.chat) && m.replyTo.None?
    ensures TopicId(m) == if m.isTopicMessage && Truthy(m.threadId) then m.threadId else Some(1)
  {
  }

  /** A reply to a topic message with a thread id resolves to that thread id,
      whatever the reply's own flags and thread id say. */
  lemma ReplyToTopicUsesItsThread(m: Msg)
    requires IsForum(m.chat) && m.replyTo.Some? && m.replyTo.value.isTopicMessage
    requires Truthy(m.replyTo.value.threadId)
    ensures TopicId(m) == m.replyTo.value.threadId
  {
  }
}
