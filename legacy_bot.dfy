/** main.py, the older variant: `/start` stores the raw thread id, `/stop`
    nulls the binding, and `ask` only answers texts that carry a question
    prefix. */
module LegacyBot {
  import opened Wrappers
  import opened PyText
  import opened Telegram
  import opened ConfigStore
  import opened Effects

  const StartCommand := "/start"
  const StopCommand := "/stop"

  const Started := "Бот активирован. Задавайте вопросы с префиксом `?` или /stop"
  const Stopped := "Бот деактивирован."
  const UseStart := "Это не место для дискуссий. Используйте /start в нужной теме."
  const NotThePlace := "Это не место для дискуссий."

  const AskPrefix := "/ask "
  const QuestionPrefix := "/вопрос "
  const MarkPrefix := "?"
  /** The prefixes that mark a text as a question, a Python `set`. */
  const Prefixes: set<string> := {AskPrefix, QuestionPrefix, MarkPrefix}

  /** The text is non-empty and starts with `p`. */
  predicate Matches(text: Option<string>, p: string)
  {
    HasText(text) && StartsWith(text.value, p)
  }

  /** Which prefix a text starts with can be read off its first two
      characters. */
  lemma PrefixDeterminedByText(s: string, p: string)
    requires p in Prefixes && StartsWith(s, p)
    ensures |s| >= 1 && (s[0] != '?' ==> |s| >= 2)
    ensures p == if s[0] == '?' then MarkPrefix else if s[1] == 'a' then AskPrefix else QuestionPrefix
  {
    assert s[0] == p[0];
    if p != MarkPrefix {
      assert s[1] == p[1];
    }
  }

  /** No text starts with two different question prefixes. */
  lemma PrefixesExclusive(s: string, p: string, p': string)
    requires p in Prefixes && p' in Prefixes
    requires StartsWith(s, p) && StartsWith(s, p')
    ensures p == p'
  {
    PrefixDeterminedByText(s, p);
    PrefixDeterminedByText(s, p');
  }

  /** The question a text asks: the text after its prefix, stripped, or
      `None` when no prefix matches. */
  function Question(text: Option<string>): (q: Option<string>)
    ensures q.Some? <==> exists p :: p in Prefixes && Matches(text, p)
  {
    if Matches(text, AskPrefix) then Some(Strip(RemovePrefix(text.value, AskPrefix)))
    else if Matches(text, QuestionPrefix) then Some(Strip(RemovePrefix(text.value, QuestionPrefix)))
    else if Matches(text, MarkPrefix) then Some(Strip(RemovePrefix(text.value, MarkPrefix)))
    else None
  }

  /** When prefix `p` matches, the question is the stripped rest of the text
      after `p`, whichever prefix is tried first. */
  lemma QuestionAfterPrefix(text: Option<string>, p: string)
    requires p in Prefixes && Matches(text, p)
    ensures Question(text) == Some(Strip(RemovePrefix(text.value, p)))
  {
    if Matches(text, AskPrefix) {
      PrefixesExclusive(text.value, p, AskPrefix);
    } else if Matches(text, QuestionPrefix) {
      PrefixesExclusive(text.value, p, QuestionPrefix);
    } else {
      assert p == MarkPrefix;
    }
  }

  /** The `for` loop of `ask` over the prefix set, with `break` at the first
      match.  `order` is the order in which Python's set iteration happens to
      visit the prefixes; the question found does not depend on it. */
  method ExtractQuestion(text: Option<string>, order: seq<string>) returns (question: Option<string>)
    requires forall p :: p in order <==> p in Prefixes
    ensures question == Question(text)
  {
    question := None;
    var i := 0;
    while i < |order|
      invariant 0 <= i <= |order|
      invariant forall j :: 0 <= j < i ==> !Matches(text, order[j])
    {
      var p := order[i];
      if HasText(text) && StartsWith(text.value, p) {
        question := Some(Strip(RemovePrefix(text.value, p)));
        QuestionAfterPrefix(text, p);
        return;
      }
      i := i + 1;
    }
  }

  /** The bot is bound to some chat: `config.get("chat_id") is not None`. */
  predicate IsActive(config: Config)
  {
    Get(config, ChatKey) != Null
  }

  /** `m` comes from the bound chat and carries the bound raw thread id. */
  predicate AtBinding(config: Config, m: Msg)
  {
    Get(config, ChatKey) == Int(m.chat.id) && Stored(m.threadId) == Get(config, TopicKey)
  }

  /** The dictionary after `/start` sent as `m`: the raw thread id is stored
      as it is, `None` included. */
  function Bind(config: Config, m: Msg): (next: Config)
    ensures next.Keys == config.Keys + {ChatKey, TopicKey}
    ensures Get(next, ChatKey) == Int(m.chat.id)
    ensures Get(next, TopicKey) == Stored(m.threadId)
    ensures forall k :: k != ChatKey && k != TopicKey ==> Get(next, k) == Get(config, k)
  {
    config[ChatKey := Int(m.chat.id)][TopicKey := Stored(m.threadId)]
  }

  /** The dictionary after `/stop`: both keys stay, set to `None`. */
  function Unbind(config: Config): (next: Config)
    ensures next.Keys == config.Keys + {ChatKey, TopicKey}
    ensures next[ChatKey] == Null && next[TopicKey] == Null
    ensures forall k :: k != ChatKey && k != TopicKey ==> Get(next, k) == Get(config, k)
  {
    config[ChatKey := Null][TopicKey := Null]
  }

  /** How `control` changes the dictionary for one update. */
  function Step(config: Config, message: Option<Msg>): (next: Config)
    ensures forall k :: k != ChatKey && k != TopicKey ==> Get(next, k) == Get(config, k)
    ensures message.None? || message.value.text !in {Some(StartCommand), Some(StopCommand)} ==> next == config
  {
    match message
    case None => config
    case Some(m) =>
      if m.text == Some(StartCommand) then Bind(config, m)
      else if m.text == Some(StopCommand) then Unbind(config)
      else config
  }

  /** `/stop` may be repeated: a second one changes nothing, and afterwards
      the bot is not active. */
  lemma UnbindIdempotent(config: Config)
    ensures Unbind(Unbind(config)) == Unbind(config)
    ensures !IsActive(Unbind(config))
  {
  }

  /** Only the last `/start` counts: it replaces any earlier binding. */
  lemma LastStartWins(config: Config, first: Msg, second: Msg)
    ensures Bind(Bind(config, first), second) == Bind(config, second)
  {
  }

  /** `/start` followed by `/stop` leaves what `/stop` alone would leave. */
  lemma StopUndoesStart(config: Config, m: Msg)
    ensures Unbind(Bind(config, m)) == Unbind(config)
  {
  }

  /** After `/start` sent as `m`, `ask` passes its location check exactly for
      messages from the same chat with the same raw thread id. */
  lemma AtBindingAfterStart(config: Config, m: Msg, m': Msg)
    ensures AtBinding(Bind(config, m), m') <==> m'.chat.id == m.chat.id && m'.threadId == m.threadId
  {
    StoredInjective(m'.threadId, m.threadId);
  }

  /** The module-level `config` dictionary and the two handlers over it. */
  class Bot {
    var config: Config

    /** `config = load_config()`: the bot starts from whatever was loaded. */
    constructor (loaded: Config)
      ensures config == loaded
    {
      config := loaded;
    }

    /** `control`: the handler of `/start` and `/stop`. */
    method Control(message: Option<Msg>) returns (actions: seq<Action>)
      modifies this
      ensures config == Step(old(config), message)
      ensures message.Some? && message.value.text == Some(StartCommand)
              ==> actions == [Persist(config), PlainReply(Started)]
      ensures message.Some? && message.value.text == Some(StopCommand)
              ==> actions == [Persist(config), PlainReply(Stopped)]
      ensures message.None? || message.value.text !in {Some(StartCommand), Some(StopCommand)}
              ==> actions == []
    {
      actions := [];
      if message.Some? && message.value.text == Some(StartCommand) {
        config := config[ChatKey := Int(message.value.chat.id)];
        config := config[TopicKey := Stored(message.value.threadId)];
        actions := actions + [Persist(config), PlainReply(Started)];
      }
      if message.Some? && message.value.text == Some(StopCommand) {
        config := config[ChatKey := Null];
        config := config[TopicKey := Null];
        actions := actions + [Persist(config), PlainReply(Stopped)];
      }
    }

    /** `ask`: the handler of texts starting with a question prefix.
        `response` stands for what `agent.run` answers and `order` for the
        order in which the prefix set is iterated. */
    method Ask(message: Option<Msg>, order: seq<string>, response: string) returns (actions: seq<Action>)
      requires forall p :: p in order <==> p in Prefixes
      ensures message.None? ==> actions == []
      ensures message.Some? && !IsActive(config) ==> actions == [PlainReply(UseStart)]
      ensures message.Some? && IsActive(config) && !AtBinding(config, message.value)
              ==> actions == [PlainReply(NotThePlace)]
      ensures (exists q :: CallAgent(q) in actions)
              <==> message.Some? && AtBinding(config, message.value)
                   && Question(message.value.text).Some? && Question(message.value.text).value != []
      ensures forall q :: CallAgent(q) in actions ==>
                (&& Some(q) == Question(message.value.text)
                 && actions == [CallAgent(q), PlainReply(response)])
      ensures message.Some? && AtBinding(config, message.value)
              && (Question(message.value.text).None? || Question(message.value.text) == Some([]))
              ==> actions == []
    {
      if message.None? {
        return [];
      }
      var m := message.value;
      var chatId := Get(config, ChatKey);
      var topicId := Get(config, TopicKey);
      if chatId == Null {
        return [PlainReply(UseStart)];
      }
      if !(chatId == Int(m.chat.id) && Stored(m.threadId) == topicId) {
        return [PlainReply(NotThePlace)];
      }
      var question := ExtractQuestion(m.text, order);
      if question.Some? && question.value != [] {
        actions := [CallAgent(question.value), PlainReply(response)];
      } else {
        actions := [];
      }
    }
  }
}
