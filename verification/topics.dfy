/** `MQ::Topic`: one binding of a topic name to the consumer class that was
    current when the binding was made. */
module Topics {
  import opened Wrappers
  import opened Names

  /** A handler class the application defines: instantiable with no
      argument and answering `respond`. */
  datatype Handler = Handler(className: string)

  /** A value in a per-topic options hash. */
  datatype Value = IntValue(i: int) | StrValue(s: string) | SymValue(sym: string) | BoolValue(b: bool)

  /** Option keys are Symbols; a key is kept as its text. */
  type Config = map<string, Value>

  datatype Topic = Topic(name: string, channel: string, consumer: Option<Handler>, config: Config)

  /** `Topic.new(name, consumer)`. */
  function NewTopic(name: Name, consumer: Option<Handler>): (t: Topic)
    ensures t.name == ToS(name)
    ensures t.channel == ""
    ensures t.consumer == consumer
    ensures t.config == map[]
  {
    Topic(ToS(name), "", consumer, map[])
  }

  /** `Topic#config(**options)`: `merge!` of the options into the config. The
      merged hash is the result's `config`. */
  function Configure(t: Topic, options: Config): (r: Topic)
    ensures r.name == t.name && r.channel == t.channel && r.consumer == t.consumer
    ensures r.config.Keys == t.config.Keys + options.Keys
    ensures forall k :: k in options ==> r.config[k] == options[k]
    ensures forall k :: k in t.config && k !in options ==> r.config[k] == t.config[k]
  {
    t.(config := t.config + options)
  }

  /** Merging the same options twice changes nothing more than merging once. */
  lemma ConfigureIdempotent(t: Topic, options: Config)
    ensures Configure(Configure(t, options), options) == Configure(t, options)
  {
  }

  /** Two merges in a row are one merge of the right-biased union. */
  lemma ConfigureCompose(t: Topic, a: Config, b: Config)
    ensures Configure(Configure(t, a), b) == Configure(t, a + b)
  {
  }

  /** A freshly made topic configured with `options` has exactly `options`. */
  lemma ConfigureNew(name: Name, consumer: Option<Handler>, options: Config)
    ensures Configure(NewTopic(name, consumer), options).config == options
  {
  }
}
