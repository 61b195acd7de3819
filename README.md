# ask-telegram-bot: activation state machine and message gate

The bot binds itself to one Telegram location (a chat and, in a forum, a
topic) and forwards the questions asked there to a question-answering agent.
The project models the two variants of that core:

- `telegram-bot.py` (modules `TopicResolver` and `TelegramBot`):
  - `_get_topic_id` resolves a message's topic from its forum, reply and topic flags.
  - `control` handles `/start`, `/stop`, `/shut-up`, `/status` and `/help` over the global `config` dictionary.
  - `ask` is a chain of guards that decides whether the agent is called, and with which question.
- `main.py` (module `LegacyBot`), the older variant:
  - `/start` stores the raw thread id and `/stop` nulls the binding.
  - `ask` answers only texts that start with `/ask `, `/вопрос ` or `?`.

Shared modules:
- `Wrappers` holds `Option`.
- `PyText` holds Python's `str.strip`, `startswith` and `removeprefix` over `seq<char>`, with `str.isspace` whitespace.
- `Telegram` holds the message abstraction.
- `ConfigStore` holds the configuration dictionary as `map<string, Value>` and `config.get`.
- `Effects` holds the actions a handler performs, in order:
  - `StyledReply(template)` is a reply rephrased by the styling agent.
  - `PlainReply(text)` is a reply sent as written.
  - `CallAgent(question)` is a call of the question-answering agent.
  - `Persist(snapshot)` is `save_config`.

The global dictionary becomes the field `config` of a class `Bot` (one class
per variant). `control` becomes the method `Control`, which changes the field.
`ask` becomes the method `Ask`, which only reads it. Each method returns the
sequence of actions it performs. In both `TelegramBot` and `LegacyBot`,
`Step` gives the pure dictionary transition of `control` for one update, and
the lemmas about binding and unbinding are stated over it. `TelegramBot` also
has `Run`, the transition for a whole sequence of updates, and the lemmas
about command sequences.

Behaviour of the code worth noting:
- There is no fallback text when the agent or the styling agent fails. No `try` surrounds those calls.
- telegram-bot.py's `/stop` removes the two keys rather than setting them to `None`.
- telegram-bot.py's `ask` stays silent when the bot is not activated.
- One agent object lives for the whole process. It is not created on activation.
- `ask` does not treat a stored `chat_id` with a missing `topic_id` as "not activated". It compares the stored `None` like any other value.
- main.py's `ask` requires a question prefix.

## Model

| member | source | states |
|---|---|---|
| `PyText.LeadingSpace` | telegram-bot.py:119 | the number of characters `lstrip` removes: every character before it is whitespace, and the character at it, if any, is not |
| `PyText.TrailingSpace` | telegram-bot.py:119 | where the run that `rstrip` removes begins: every character from it on is whitespace, and the character before it, if any, is not |
| `PyText.Strip` | telegram-bot.py:119 | `strip()` returns the infix of the text that starts right after the leading whitespace, and it neither starts nor ends with whitespace |
| `PyText.StripIsTrimmedInfix` | telegram-bot.py:119 | `strip()` returns the infix between a blank head and a blank tail |
| `PyText.StripEmptyIffBlank` | telegram-bot.py:119-120 | the stripped text is empty exactly when the text is all whitespace |
| `PyText.StripIdempotent` | telegram-bot.py:119 | stripping twice gives the same as stripping once |
| `PyText.RemovePrefix` | main.py:68 | `removeprefix` gives the rest after a matching prefix, and leaves the text as it is otherwise |
| `ConfigStore.StoredInjective` | telegram-bot.py:70 | storing an optional id in the dictionary is one-to-one: two ids compare equal there exactly when they are equal |
| `TopicResolver.TopicId` | telegram-bot.py:30-65 | `None` exactly outside forum supergroups; never `0`; otherwise `1`, the replied-to thread id or the message's own thread id |
| `TopicResolver.ReplyToPlainIsGeneral` | telegram-bot.py:53-55 | in a forum, a reply to a non-topic message resolves to `1`, whatever the reply's own flags and thread id |
| `TopicResolver.NonReplyUsesOwnThread` | telegram-bot.py:57-65 | in a forum, a message that is not a reply resolves to its own thread id when it is a topic message with a truthy thread id, and to `1` otherwise |
| `TopicResolver.ReplyToTopicUsesItsThread` | telegram-bot.py:49-52 | a reply to a topic message with a truthy thread id resolves to that thread id |
| `TopicResolver.FalsyRepliedThreadFallsThrough` | telegram-bot.py:46-65 | a reply to a topic message whose thread id is missing or `0` resolves as the same message without the reply |
| `TelegramBot.Bind` | telegram-bot.py:68-71 | `/start` sets `chat_id` to the chat's id and `topic_id` to the resolved topic; every other key keeps its value |
| `TelegramBot.Unbind` | telegram-bot.py:74-77 | `/stop` and `/shut-up` remove exactly `chat_id` and `topic_id`, whether or not they were present |
| `TelegramBot.StatusTemplate` | telegram-bot.py:80-88 | `/status` answers "not activated" exactly when `chat_id` is `None`, "active here" exactly at the bound chat and topic, and "active elsewhere" otherwise |
| `TelegramBot.Admits` | telegram-bot.py:104-117 | the `ask` gate admits a message exactly when `/status` sent from there would say "active here" and the message has a non-empty text |
| `TelegramBot.Step` | telegram-bot.py:67-97 | `control` never changes keys other than `chat_id` and `topic_id`; any text other than `/start`, `/stop` or `/shut-up` leaves the dictionary unchanged |
| `TelegramBot.UnbindIdempotent` | telegram-bot.py:74-77 | a second `/stop` changes nothing, and afterwards the bot is not active |
| `TelegramBot.LastStartWins` | telegram-bot.py:68-71 | a `/start` overwrites any earlier binding completely |
| `TelegramBot.StatusAfterStart` | telegram-bot.py:68-88 | after `/start` from `m`, `/status` says "active here" exactly for the same chat and resolved topic, and never "not activated" |
| `TelegramBot.AdmitsAfterStart` | telegram-bot.py:68-117 | after `/start` from `m`, the `ask` gate admits exactly the texts from the same chat and resolved topic |
| `TelegramBot.NothingAdmittedWhenUnbound` | telegram-bot.py:80-108 | when `chat_id` is absent or `null`, no message passes the gate and `/status` says "not activated" |
| `TelegramBot.Run` | telegram-bot.py:67-77 | no sequence of commands changes a key other than `chat_id` and `topic_id`, such as the bot token |
| `TelegramBot.RunWithoutBindingChanges` | telegram-bot.py:67-97 | commands other than `/start`, `/stop` and `/shut-up` leave the dictionary unchanged, however many are sent |
| `TelegramBot.RunBindsLastStart` | telegram-bot.py:68-77 | after any command sequence, the binding is the one from the last `/start` when no `/stop` or `/shut-up` followed it |
| `TelegramBot.RunUnboundAfterLastStop` | telegram-bot.py:74-77 | after a `/stop` or `/shut-up` that no `/start` followed, the bot is not active |
| `TelegramBot.Bot.constructor` | telegram-bot.py:139-142 | the bot starts from the loaded dictionary |
| `TelegramBot.Bot.Control` | telegram-bot.py:67-97 | new dictionary as given by `Step`; `/start` and `/stop`/`/shut-up` persist, then send the styled confirmation; `/status` sends the styled status template; `/help` sends the fixed help text; anything else does nothing |
| `TelegramBot.Bot.Ask` | telegram-bot.py:99-124 | nothing when not activated; the styled "not the place" reply on a location mismatch; the styled "NO TEXT" reply for no text; nothing for blank text; the agent is called exactly when the gate admits a non-blank text, with the stripped text, and the reply is the answer, a blank line and the statistics |
| `LegacyBot.PrefixDeterminedByText` | main.py:66 | the first two characters of a text tell which prefix it starts with |
| `LegacyBot.PrefixesExclusive` | main.py:66-69 | no text starts with two different question prefixes |
| `LegacyBot.Question` | main.py:65-71 | there is a question exactly when some prefix of the set matches a non-empty text |
| `LegacyBot.QuestionAfterPrefix` | main.py:66-69 | when prefix `p` matches, the question is the stripped rest after `p`, whichever prefix is tried first |
| `LegacyBot.ExtractQuestion` | main.py:65-69 | the loop over the prefix set finds the same question in every iteration order |
| `LegacyBot.Bind` | main.py:35-38 | `/start` stores the chat id and the raw thread id, `None` included; every other key keeps its value |
| `LegacyBot.Unbind` | main.py:41-44 | `/stop` sets both keys to `None` and keeps them present; every other key keeps its value |
| `LegacyBot.Step` | main.py:33-45 | any text other than exactly `/start` or `/stop` leaves the dictionary unchanged; other keys are never changed |
| `LegacyBot.UnbindIdempotent` | main.py:41-44 | a second `/stop` changes nothing, and afterwards the bot is not active |
| `LegacyBot.LastStartWins` | main.py:35-38 | a `/start` overwrites any earlier binding completely |
| `LegacyBot.StopUndoesStart` | main.py:35-44 | `/start` then `/stop` leaves the same dictionary as `/stop` alone |
| `LegacyBot.AtBindingAfterStart` | main.py:35-63 | after `/start` from `m`, the location check passes exactly for the same chat and the same raw thread id |
| `LegacyBot.Bot.constructor` | main.py:29 | the bot starts from the loaded dictionary |
| `LegacyBot.Bot.Control` | main.py:33-45 | new dictionary as given by `Step`; `/start` and `/stop` persist, then send their fixed reply; anything else does nothing |
| `LegacyBot.Bot.Ask` | main.py:47-75 | the "use /start" hint when not activated; "not the place" on a chat or raw thread mismatch; the agent is called exactly at the binding with a non-empty question, and the reply is exactly its answer; no prefix or a blank question gives no action |

## Left out

- Reading and writing the JSON file (`load_config`, `save_config`) is file I/O. Saving is the `Persist` action with the saved snapshot. The loaded dictionary is the constructor's argument.
- Configuration values other than `null`, integers and strings (booleans, floats, lists, objects) are not modelled. So is their Python equality with integers, such as `True == 1` and `100.0 == 100`.
- The agents (`agent.run`, `agent_reply.run`, `agent.stat`) are foreign calls. The answer and the statistics text are parameters of `Ask`. A styled reply is the action that names its template.
- The Telegram transport and handler registration (`Application`, `PrefixHandler`, `filters`) are not modelled. Any message may be given to either handler.
- The token check and `exit(1)` at start-up are process bootstrap.
- The unregistered `photo` handler is not modelled.
- The `print` diagnostics to stderr and the `async`/`await` scheduling are not modelled. Each handler runs to completion on its own.
- `LegacyBot.ExtractQuestion`: Python's set iteration order is a parameter. The model accepts any order that visits every prefix.
- Every foreign call is assumed to return: `_reply`, `agent.run` and `save_config`. When one raises, the handler stops there. For example, an exception from `_reply` after `save_config` (telegram-bot.py:71-72) leaves the new dictionary saved and sends no reply. The action lists do not show such partial runs.
