/** What a handler makes happen, in the order it happens. */
module Effects {
  import opened ConfigStore

  /** `StyledReply(t)` is `reply_text(await _reply(t))`: the styling backend
      rephrases the template `t` and its answer is sent to the chat.
      `PlainReply(t)` sends `t` as it is.  `CallAgent(q)` is `agent.run(q)`.
      `Persist(c)` is `save_config(c)`. */
  datatype Action =
    | StyledReply(template: string)
    | PlainReply(text: string)
    | CallAgent(question: string)
    | Persist(snapshot: Config)
}
