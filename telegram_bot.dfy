/** telegram-bot.py: the activation state machine (`control`) and the message
    gate in front of the question-answering agent (`ask`). */
module TelegramBot {
  import opened Wrappers
  import opened PyText
  import opened Telegram
  import opened ConfigStore
  import opened Effects
  import opened TopicResolver

  const StartCommand := "/start"
  const StopCommand := "/stop"
  const ShutUpCommand := "/shut-up"
  const StatusCommand := "/status"
  const HelpCommand := "/help"

  const Activated := "Бот активирован и будет отвечать в этой теме."
  const Deactivated := "Бот деактивирован и больше не будет отвечать в этой теме."
  const NotActivated := "Бот не активирован. Используйте /start в нужной теме."
  const ActiveHere := "Бот активирован и участвует в теме"
  const ActiveElsewhere := "Бот активирован, но не участвует в этой теме. Используйте /start в нужной теме."
  const NotThePlace := "Это не место для дискуссий."
  const NoText := "NO TEXT"
  /** The `/help` text once `dedent` has removed the common indentation. */
  const HelpText :=
    "\nИспользуйте /start в нужной теме, чтобы активировать бот.\n"
    + "Задавайте вопросы с префиксом `?` или /ask.\n"
    + "Используйте /stop, чтобы деактивировать бот.\n"
    + "Используйте /status, чтобы проверить статус бот.\n"
    + "Бот отвечает только в теме, где он был активирован.\n"

  /** The bot is bound to some chat: `config.get("chat_id") is not None`. */
  predicate IsActive(config: Config)
  {
    Get(config, ChatKey) != Null
  }

  /** `m` comes from the bound chat and resolves to the bound topic. */
  predicate AtBinding(config: Config, m: Msg)
  {
    Get(config, ChatKey) == Int(m.chat.id) && Stored(TopicId(m)) == Get(config, TopicKey)
  }

  /** The gate of `ask`: a message reaches the agent only from the bound
      location and only with a non-empty text. */
  predicate Admits(config: Config, m: Msg)
    ensures Admits(config, m) <==> StatusTemplate(config, m) == ActiveHere && HasText(m.text)
  {
    IsActive(config) && AtBinding(config, m) && HasText(m.text)
  }

  /** The dictionary after `/start` sent as `m`. */
  function Bind(config: Config, m: Msg): (next: Config)
    ensures next.Keys == config.Keys + {ChatKey, TopicKey}
    ensures Get(next, ChatKey) == Int(m.chat.id)
    ensures Get(next, TopicKey) == Stored(TopicId(m))
    ensures forall k :: k != ChatKey && k != TopicKey ==> Get(next, k) == Get(config, k)
  {
    config[ChatKey := Int(m.chat.id)][TopicKey := Stored(TopicId(m))]
  }

  /** The dictionary after `/stop` or `/shut-up`. */
  function Unbind(config: Config): (next: Config)
    ensures next.Keys == config.Keys - {ChatKey, TopicKey}
    ensures forall k :: k in next ==> next[k] == config[k]
  {
    config - {ChatKey, TopicKey}
  }

  /** The template `/status` sent as `m` answers with. */
  function StatusTemplate(config: Config, m: Msg): (t: string)
    ensures t == NotActivated <==> !IsActive(config)
    ensures t == ActiveHere <==> IsActive(config) && AtBinding(config, m)
    ensures t == ActiveElsewhere <==> IsActive(config) && !AtBinding(config, m)
  {
    if Get(config, ChatKey) == Null then NotActivated
    else if Get(config, ChatKey) == Int(m.chat.id) && Stored(TopicId(m)) == Get(config, TopicKey) then ActiveHere
    else ActiveElsewhere
  }

  /** How `control` changes the dictionary for one update. */
  function Step(config: Config, message: Option<Msg>): (next: Config)
    ensures forall k :: k != ChatKey && k != TopicKey ==> Get(next, k) == Get(config, k)
    ensures message.None? ==> next == config
    ensures message.Some? && message.value.text !in {Some(StartCommand), Some(StopCommand), Some(ShutUpCommand)}
            ==> next == config
  {
    match message
    case None => config
    case Some(m) =>
      if m.text == Some(StartCommand) then Bind(config, m)
      else if m.text == Some(StopCommand) || m.text == Some(ShutUpCommand) then Unbind(config)
      else config
  }

  /** The dictionary after `control` has handled `messages` in order. */
  function Run(config: Config, messages: seq<Option<Msg>>): (next: Config)
    ensures forall k :: k != ChatKey && k != TopicKey ==> Get(next, k) == Get(config, k)
    decreases |messages|
  {
    if messages == [] then config else Run(Step(config, messages[0]), messages[1..])
  }

  /** `m` is `/start`, which binds the bot to where `m` was sent. */
  predicate IsStart(message: Option<Msg>)
  {
    message.Some? && message.value.text == Some(StartCommand)
  }

  /** `m` is one of the commands that changes the binding. */
  predicate ChangesBinding(message: Option<Msg>)
  {
    message.Some? && message.value.text in {Some(StartCommand), Some(StopCommand), Some(ShutUpCommand)}
  }

  /** `/stop` and `/shut-up` may be repeated: a second one changes nothing. */
  lemma UnbindIdempotent(config: Config)
    ensures Unbind(Unbind(config)) == Unbind(config)
    ensures !IsActive(Unbind(config))
  {
  }

  /** Only the last `/start` counts: it replaces any earlier binding. */
  lemma LastStartWins(config: Config, first: Msg, second: Msg)
    ensures Bind(Bind(config, first), second) == Bind(config, second)
  {
  }

  /** After `/start` sent as `m`, `/status` answers "active here" exactly for
      messages from the same chat that resolve to the same topic, and "active
      elsewhere" for all others. */
  lemma StatusAfterStart(config: Config, m: Msg, m': Msg)
    ensures StatusTemplate(Bind(config, m), m') == ActiveHere
            <==> m'.chat.id == m.chat.id && TopicId(m') == TopicId(m)
    ensures StatusTemplate(Bind(config, m), m') != NotActivated
  {
    StoredInjective(TopicId(m'), TopicId(m));
  }

  /** After `/start` sent as `m`, the gate lets through exactly the texts sent
      from the same chat and resolving to the same topic. */
  lemma AdmitsAfterStart(config: Config, m: Msg, m': Msg)
    ensures Admits(Bind(config, m), m')
            <==> m'.chat.id == m.chat.id && TopicId(m') == TopicId(m) && HasText(m'.text)
  {
    StatusAfterStart(config, m, m');
  }

  /** Before any `/start`, and after `/stop`, nothing passes the gate and
      `/status` reports the bot as not activated. */
  lemma NothingAdmittedWhenUnbound(config: Config, m: Msg)
    requires !IsActive(config)
    ensures !Admits(config, m)
    ensures StatusTemplate(config, m) == NotActivated
  {
  }

  /** Messages that are neither `/start`, `/stop` nor `/shut-up` leave the
      dictionary as it was. */
  lemma {:induction false} RunWithoutBindingChanges(config: Config, messages: seq<Option<Msg>>)
    requires forall j :: 0 <= j < |messages| ==> !ChangesBinding(messages[j])
    ensures Run(config, messages) == config
    decreases |messages|
  {
    if messages != [] {
      assert !ChangesBinding(messages[0]);
      RunWithoutBindingChanges(config, messages[1..]);
    }
  }

  /** After any sequence of commands, exactly one location is bound: the one
      of the most recent `/start`, when no `/stop` or `/shut-up` came after it. */
  lemma {:induction false} RunBindsLastStart(config: Config, messages: seq<Option<Msg>>, i: nat)
    requires i < |messages| && IsStart(messages[i])
    requires forall j :: i < j < |messages| ==> !ChangesBinding(messages[j])
    ensures Get(Run(config, messages), ChatKey) == Int(messages[i].value.chat.id)
    ensures Get(Run(config, messages), TopicKey) == Stored(TopicId(messages[i].value))
    decreases |messages|
  {
    if i == 0 {
      RunWithoutBindingChanges(Bind(config, messages[0].value), messages[1..]);
    } else {
      RunBindsLastStart(Step(config, messages[0]), messages[1..], i - 1);
    }
  }

  /** After a `/stop` or `/shut-up` that no `/start` followed, the bot is not
      active. */
  lemma {:induction false} RunUnboundAfterLastStop(config: Config, messages: seq<Option<Msg>>, i: nat)
    requires i < |messages| && ChangesBinding(messages[i]) && !IsStart(messages[i])
    requires forall j :: i < j < |messages| ==> !ChangesBinding(messages[j])
    ensures !IsActive(Run(config, messages))
    decreases |messages|
  {
    if i == 0 {
      RunWithoutBindingChanges(Unbind(config), messages[1..]);
    } else {
      RunUnboundAfterLastStop(Step(config, messages[0]), messages[1..], i - 1);
    }
  }

  /** The module-level `config` dictionary and the two handlers over it. */
  class Bot {
    var config: Config

    /** `config = load_config()`: the bot starts from whatever was loaded. */
    constructor (loaded: Config)
      ensures config == loaded
    {
      config := loaded;
    }

    /** `control`: the handler of `/start`, `/stop`, `/shut-up`, `/status`
        and `/help`. */
    method Control(message: Option<Msg>) returns (actions: seq<Action>)
      modifies this
      ensures config == Step(old(config), message)
      ensures IsStart(message) ==> actions == [Persist(config), StyledReply(Activated)]
      ensures message.Some? && message.value.text in {Some(StopCommand), Some(ShutUpCommand)}
              ==> actions == [Persist(config), StyledReply(Deactivated)]
      ensures message.Some? && message.value.text == Some(StatusCommand)
              ==> actions == [StyledReply(StatusTemplate(old(config), message.value))]
      ensures message.Some? && message.value.text == Some(HelpCommand) ==> actions == [PlainReply(HelpText)]
      ensures message.None? || message.value.text !in
                {Some(StartCommand), Some(StopCommand), Some(ShutUpCommand), Some(StatusCommand), Some(HelpCommand)}
              ==> actions == []
    {
      actions := [];
      if message.Some? && message.value.text == Some(StartCommand) {
        var m := message.value;
        config := config[ChatKey := Int(m.chat.id)];
        config := config[TopicKey := Stored(TopicId(m))];
        actions := actions + [Persist(config), StyledReply(Activated)];
      }
      if message.Some? && (message.value.text == Some(StopCommand) || message.value.text == Some(ShutUpCommand)) {
        config := config - {ChatKey};
        config := config - {TopicKey};
        actions := actions + [Persist(config), StyledReply(Deactivated)];
      }
      if message.Some? && message.value.text == Some(StatusCommand) {
        var m := message.value;
        var chatId := Get(config, ChatKey);
        var topicId := Get(config, TopicKey);
        if chatId == Null {
          actions := actions + [StyledReply(NotActivated)];
          return;
        }
        if chatId == Int(m.chat.id) && Stored(TopicId(m)) == topicId {
          actions := actions + [StyledReply(ActiveHere)];
          return;
        } else {
          actions := actions + [StyledReply(ActiveElsewhere)];
          return;
        }
      }
      if message.Some? && message.value.text == Some(HelpCommand) {
        actions := actions + [PlainReply(HelpText)];
      }
    }

    /** `ask`: the handler of every non-command text.  `response` stands for
        what `agent.run` answers and `stat` for `str(agent.stat)`. */
    method Ask(message: Option<Msg>, response: string, stat: string) returns (actions: seq<Action>)
      ensures message.None? ==> actions == []
      ensures message.Some? && !IsActive(config) ==> actions == []
      ensures message.Some? && IsActive(config) && !AtBinding(config, message.value)
              ==> actions == [StyledReply(NotThePlace)]
      ensures message.Some? && AtBinding(config, message.value) && !HasText(message.value.text)
              ==> actions == [StyledReply(NoText)]
      ensures message.Some? && Admits(config, message.value) && AllSpace(message.value.text.value)
              ==> actions == []
      ensures (exists q :: CallAgent(q) in actions)
              <==> message.Some? && Admits(config, message.value) && !AllSpace(message.value.text.value)
      ensures forall q :: CallAgent(q) in actions ==>
                (&& q == Strip(message.value.text.value) && q != []
                 && actions == [CallAgent(q), PlainReply(response + "\n\n" + stat)])
    {
      if message.None? {
        return [];
      }
      var m := message.value;
      var chatId := Get(config, ChatKey);
      var topicId := Get(config, TopicKey);
      if chatId == Null {
        return [];
      }
      if !(chatId == Int(m.chat.id) && Stored(TopicId(m)) == topicId) {
        return [StyledReply(NotThePlace)];
      }
      if !HasText(m.text) {
        return [StyledReply(NoText)];
      }
      var question := Strip(m.text.value);
      StripEmptyIffBlank(m.text.value);
      if question != [] {
        actions := [CallAgent(question), PlainReply(response + "\n\n" + stat)];
      } else {
        actions := [];
      }
    }
  }
}
