/** The bot's configuration dictionary, held in memory (the JSON file behind
    it is not modelled). */
module ConfigStore {
  import opened Wrappers

  /** A value of the configuration dictionary.  Python's `None` and JSON
      `null` are both `Null`. */
  datatype Value = Null | Int(i: int) | Str(s: string)

  type Config = map<string, Value>

  const ChatKey := "chat_id"
  const TopicKey := "topic_id"

  /** `config.get(key)`: `None` when the key is absent. */
  function Get(config: Config, key: string): Value
  {
    if key in config then config[key] else Null
  }

  /** An `int | None` as it is stored in, and compared with, the dictionary. */
  function Stored(id: Option<int>): Value
  {
    if id.Some? then Int(id.value) else Null
  }

  /** Storing loses nothing: two optional ids compare equal in the dictionary
      exactly when they are equal. */
  lemma StoredInjective(a: Option<int>, b: Option<int>)
    ensures Stored(a) == Stored(b) <==> a == b
  {
  }
}
