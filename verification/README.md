# MQ routing and dispatch, modelled in Dafny

This project models the core of a small Ruby message-consumer framework
(`main.rb`, module `MQ`). An application declares its routes in a block:
each `topic` call binds a topic name to a handler class. The framework then
starts one listener per topic name. Each listener subscribes to a stub
transport and hands every message to every handler bound to that topic.
The model follows Ruby 3.3 or later, where the member-less `Struct.new` in
`Listener#create_consumer` is allowed.

The model uses immutable values and pure functions:

- `Names`: a Ruby String or Symbol (`Name`), its `to_s`, and what
  `Object.const_get` accepts as a constant name.
- `Topics`: `MQ::Topic` (a binding: name, channel, consumer class, config)
  and its `config` merge.
- `RouteTable`: `MQ::NamedRouteCollection`. This is a Ruby Hash from the
  normalised name to a list of bindings. Its insertion order is kept as a
  list of keys.
- `Builder`: `MQ::RouteSet`. Its state is the collection plus the sticky
  current-consumer register. The routing block is a list of `topic` and
  `consumer` statements; `topic` blocks may nest. `Object.const_get` is a
  lookup, which can fail, in an explicit registry of the handler classes
  the application defines.
- `Reference`: a second, list-based reading of a routing block. It gives the
  bindings in the order their `topic` calls complete. Lemmas prove that the
  builder's collection is exactly that list grouped by name.
- `Decimal`: `Integer#to_s` for the counters in the stub messages.
- `Dispatch`: `MQ::Listener` with the stub `subscribe`, and `Consumer#start`.
  Each handler call `topic.consumer.new.respond(message)` is recorded as a
  `Respond(handler, message)` event in a trace. A binding whose consumer is
  nil raises NoMethodError at `nil.new`. That ends the whole start, which
  the top-level `rescue` then swallows. The `Outcome` records the events made
  before the failure and the failure itself.
- `Program`: the application at the end of `main.rb`. Topic "hello" gets the
  `HelloWorld` handler; also covered are the commented-out `topic "", to: ""`
  and a topic declared before any consumer.

Behaviour of `main.rb` that the model keeps as written:

- No `:channel` option is read. Every binding has channel `""`, and every
  option other than `:to` is dropped.
- A `topic` declared while no consumer is set is not a build-time error. The
  binding holds nil, and dispatch fails on its first message.
- Handler names are looked up by their exact constant name.
- Handlers are called synchronously, in order, on the listener's own call
  stack.

## Model

| member | source | states |
|---|---|---|
| `Names.ToS` | main.rb:55 | `to_s` of a String or a Symbol is its text |
| `Names.IsConstantName` | main.rb:56 | A constant name is never empty, never starts with a digit and never holds `:` or a space, so scoped paths are rejected |
| `Names.ConstantNameExamples` | main.rb:56 | `"HelloWorld"`, `"Café"` and `"A_1"` are constant names; `""`, `"hello_world"`, `"1A"` and `"Hello World"` are not |
| `Topics.NewTopic` | main.rb:6-11 | A new binding has name `name.to_s`, channel `""`, the given consumer and an empty config |
| `Topics.Configure` | main.rb:13-15 | `config(**options)` is a right-biased merge: keys are the union, given keys take the new value, every other key keeps its value; name, channel and consumer are unchanged |
| `Topics.ConfigureIdempotent` | main.rb:13-15 | Merging the same options twice equals merging them once |
| `Topics.ConfigureCompose` | main.rb:13-15 | Two merges in a row equal one merge of the right-biased union of the options |
| `Topics.ConfigureNew` | main.rb:6-15 | A fresh binding configured with some options has exactly those options |
| `RouteTable.Empty` | main.rb:21-23 | A new collection has no names and satisfies the key-order invariant |
| `RouteTable.Add` | main.rb:25-28 | `add` appends the binding to the end of the list under `name.to_s`, creating the list when absent; every other key is unchanged; a new key goes to the end of the insertion order; the invariant is preserved |
| `RouteTable.Get` | main.rb:30-32 | `[]` returns the list under `name.to_s` when present and nil otherwise |
| `RouteTable.All` | main.rb:34-36 | `all` lists every name exactly once, in insertion order, each with its list |
| `RouteTable.SymbolAndStringAgree` | main.rb:25-32 | A Symbol and a String with the same text address the same entry, both for `add` and for `[]` |
| `RouteTable.AddAllGroups` | main.rb:25-28 | After adding a list of bindings, every name holds its old list followed by that name's bindings from the list, in list order |
| `Builder.NewRouteSet` | main.rb:40-42 | A new builder has an empty collection and no current consumer |
| `Builder.Resolve` | main.rb:56 | `const_get` succeeds exactly for a well-formed constant name present in the registry; otherwise it fails with wrong-constant-name or uninitialized-constant |
| `Builder.Consumer` | main.rb:54-57 | `consumer` resolves the name's text; on success it sets the current consumer and leaves the routes alone; on failure it raises the resolution error |
| `Builder.DeclareTopic` | main.rb:44-52 | An unresolvable `:to` raises before anything is added. On success the last binding under `name.to_s` captures the consumer current after the block. No earlier binding of any name is replaced. The invariant holds. Once a consumer is set, it is never nil again |
| `Builder.Run` | main.rb:47-49 | Running a block never replaces earlier bindings, keeps the invariant and never clears a set consumer |
| `Builder.Draw` | main.rb:99-102 | `draw` runs the block on a fresh builder and yields a well-formed collection |
| `Builder.CollectionOf` | main.rb:59-61 | `collection` yields every name with its list, in insertion order |
| `Builder.TopicKeepsCurrent` | main.rb:44-52 | A `topic` without `:to` whose block, at any depth, has no `consumer` call and no `:to` cannot raise and leaves the current consumer as it was |
| `Builder.RunKeepsCurrent` | main.rb:47-49 | A block with no `consumer` call and no `:to` at any depth cannot raise and leaves the current consumer as it was |
| `Builder.RunConcat` | main.rb:47-49 | Running two statement lists in a row is running their concatenation; a raise in the first skips the second |
| `Builder.StickyConsumer` | main.rb:44-52 | With no `:to` and a block that sets no consumer, `topic` cannot fail; the new last binding holds the consumer current before the call, even when that is nil; the register is unchanged; with no block the binding is appended to the name's old list |
| `Builder.ToBinds` | main.rb:44-52 | `topic name, to: x` with a resolvable `x` and a block that sets no consumer succeeds, makes `x` current and binds `x` |
| `Builder.BlockOverridesTo` | main.rb:44-52 | `:to` is applied before the block, so a block ending in a resolvable `consumer` call binds that consumer whatever `:to` and the rest of the block said; the added call does not change whether `topic` raises |
| `Builder.ConsumerLastWins` | main.rb:54-57 | After a successful `consumer` call, a second call has the same outcome, success or raise, as if the first had not been made |
| `Reference.EmitTopic` | main.rb:44-52 | A `topic` call makes one binding more than the `topic` calls in its block; its own binding comes last, with empty channel and config |
| `Reference.EmitBlock` | main.rb:47-49 | A block makes one binding per `topic` call in it, nested ones included, all with empty channel and config |
| `Reference.TopicAgrees` | main.rb:44-52 | The builder's `topic` succeeds exactly when the list reading does, and its collection is the old one with the listed bindings added in order |
| `Reference.RunAgrees` | main.rb:44-52 | The same agreement for a whole block |
| `Reference.EmitBlockNamed` | main.rb:44-52 | The listed bindings with a given name number exactly the `topic` calls with that name |
| `Reference.DrawGroups` | main.rb:25-52 | After `draw`, each name's list is that name's bindings in call-completion order: one per `topic` call with that name, none overwritten. Each binding's name is its key, its channel is `""` and its config is empty |
| `Decimal.NatToString` | main.rb:87 | `Integer#to_s` is a non-empty string of decimal digits, with no leading zero, one digit exactly below 10, whose decimal value is the number |
| `Decimal.NatToStringInjective` | main.rb:87 | Distinct counters print differently |
| `Decimal.SplitDigits` | main.rb:87 | A number's digits followed by a non-digit determine both the number and the rest |
| `Dispatch.Message` | main.rb:87 | A stub message is `"test message "`, then the counter's `Integer#to_s` (decimal digits, no leading zero, whose value is the counter), then `" for topic "` and the topic name |
| `Dispatch.StubMessages` | main.rb:85-88 | The stub delivers exactly 100 messages, the i-th being `"test message i for topic <name>"` |
| `Dispatch.MessageInjective` | main.rb:87 | Two stub messages are equal exactly when their topic and counter are |
| `Dispatch.FirstUnbound` | main.rb:73-75 | The index of the first binding without a consumer, or the list length |
| `Dispatch.FanOut` | main.rb:73-76 | For one message, every binding up to the first nil consumer is called in order with that message; a nil consumer fails with NoMethodError, which the model tags with the binding's topic |
| `Dispatch.Deliver` | main.rb:89-91 | With every binding bound, there are messages × bindings calls and no failure. Otherwise the first message's fan-out fails and nothing after it runs |
| `Dispatch.DeliverAt` | main.rb:72-91 | With every binding bound, message `i` reaches binding `j` at trace position `i * bindings + j` |
| `Dispatch.DeliverOrder` | main.rb:72-91 | The same position law for every message and binding at once |
| `Dispatch.ListenerStart` | main.rb:70-78 | A listener makes 100 × bindings calls with no failure when all bindings are bound. Otherwise it fails on the first stub message, after calling the bindings before the first nil one |
| `Dispatch.ListenerMessages` | main.rb:85-91 | Every call a listener makes carries one of its own topic's stub messages |
| `Dispatch.ListenerOrder` | main.rb:70-91 | Stub message `i` reaches binding `j` at position `i * bindings + j` of the listener's trace |
| `Dispatch.ListenerCount` | main.rb:70-91 | A listener's calls are all about its own topic and none about any other |
| `Dispatch.ListenersFor` | main.rb:105-107 | One listener per key, in key order, each holding that key's list |
| `Dispatch.Listeners` | main.rb:105-107 | `start` builds one listener per key of the collection, in key order; listener `k` has key `k` as its name and that key's list as its route |
| `Dispatch.OneListenerPerTopic` | main.rb:105-107 | `start` creates exactly one listener per distinct topic name, each holding that name's list |
| `Dispatch.StartAll` | main.rb:109 | The run succeeds exactly when every listener's bindings are all bound, and then it makes 100 × total bindings calls |
| `Dispatch.Start` | main.rb:104-110 | `start` succeeds exactly when every binding of every name has a consumer (every registered constant being a handler class; see `Builder.Resolve` under "Left out") |
| `Dispatch.StartAllAt` | main.rb:109 | With no failure, listener `k`'s calls fill the trace from 100 × (bindings of listeners `0..k-1`) on, exactly as that listener alone makes them |
| `Dispatch.StartAllOrder` | main.rb:109 | The same position law for every listener at once: the listeners' traces follow one another in listener order |
| `Dispatch.FirstFailing` | main.rb:109 | The index of the first listener with a binding that has no consumer, or the number of listeners |
| `Dispatch.StartAllFailure` | main.rb:109 | When the run raises, the first listener with an unbound binding raised it: the listeners before it ran to completion without failure, then its own partial calls were made, and its error ends the run |
| `Dispatch.StartOrder` | main.rb:104-110 | With no failure, the trace is the listeners' traces in the collection's key order, listener `k` running key `k`'s list |
| `Dispatch.StartFailure` | main.rb:104-110 | When `start` raises, it is at the first key in key order whose list has an unbound binding, after every earlier key ran to completion; the NoMethodError is tagged with the topic of that key's first unbound binding |
| `Dispatch.StartAllCount` | main.rb:104-110 | On success the calls about a topic number 100 × the bindings of the listeners with that name |
| `Dispatch.ListenersNamed` | main.rb:105-107 | Over distinct keys, the bindings of the listeners named after a key number exactly that key's bindings |
| `Dispatch.StartCounts` | main.rb:104-110 | On success, each topic receives exactly 100 calls per binding bound to it |
| `Program.HelloDraw` | main.rb:131-136 | The application's routing block draws the single topic "hello" bound to `HelloWorld` with channel `""` and empty config |
| `Program.HelloStart` | main.rb:138-139 | Starting it calls `HelloWorld` 100 times, the i-th time with `"test message i for topic hello"`, and raises nothing |
| `Program.EmptyConsumerNameRejected` | main.rb:132 | `topic "", to: ""` raises wrong-constant-name at draw time |
| `Program.NilConsumerFailsAtDispatch` | main.rb:138-142 | A topic declared before any consumer builds a nil binding without error; `start` then fails on it before any call |

## Left out

- `cmd/producer.go`: a client publishing to an NSQ daemon over TCP. It is
  network I/O only.
- Ruby metaprogramming. `Object.const_get` becomes a registry of handler
  classes, passed as a parameter, plus a constant-name check (its gaps are on
  the `Names.IsConstantName` and `Builder.Resolve` lines below). A `:to` that
  is neither a String nor a Symbol
  (Ruby raises TypeError) cannot be expressed. `instance_eval` of the routing
  block becomes a list of `topic` and `consumer` statements; other Ruby code
  in a block is not modelled.
- `Application.consumer` (the lazy singleton) and the no-op `shutdown`. The
  top-level `rescue` appears only as the `failure` field that ends a run.
  `start` before `draw` (a nil route set) is not modelled.
- `HelloWorld#respond`'s `puts`. A handler call is a trace event. Handlers are
  not modelled as code, so an exception raised inside `respond` is not
  modelled either.
- A `draw` that raises yields only the error; the partly built route set is
  dropped. The script never rescues around `draw`.
- `Topic#config` returns the merged hash; the model returns the updated
  binding, whose `config` is that hash. A block that reaches a binding
  through `collection[...]` and calls `config` on it is Ruby code outside
  the modelled `topic` and `consumer` statements, so `config` is modelled on
  its own.
- `Names.IsConstantName`: scoped paths such as `"A::B"` and
  `"::HelloWorld"`, which Ruby's `const_get` resolves, are not constant names
  here. A first letter must be an ASCII upper-case letter, where Ruby also
  takes some non-ASCII capitals (such as `Ä`). Later characters may be any
  non-ASCII character.
- `Builder.Resolve`: fails with wrong-constant-name for exactly the names
  `Names.IsConstantName` rejects, so it rejects scoped paths and non-ASCII
  capital first letters that Ruby resolves. The registry holds only handler
  classes: every registered constant is taken to be a class with a
  zero-argument `new` and a `respond` method. In Ruby `const_get` also
  returns modules (such as `MQ` or `Comparable`), non-class values, and
  classes lacking one of the two. A binding to such a constant builds
  without error and then raises at `topic.consumer.new` or `respond`
  (main.rb:74-75) on the first message, much as a nil consumer does; the
  model does not express this, so `Dispatch.Start` succeeds for every bound
  binding.
- `Dispatch.Deliver`: its own contract states the number of calls and where
  a failure stops delivery, not their order. The order, message `i` reaching
  binding `j` at position `i * bindings + j`, is stated by
  `Dispatch.DeliverAt` and `Dispatch.DeliverOrder`.
- `Dispatch.ListenerStart`: the model follows a Ruby whose `Struct.new`
  accepts no member names (Ruby 3.3 and later), as `create_consumer` at
  main.rb:81-95 needs. On older Rubies `Struct.new` with no arguments raises
  ArgumentError. The first `Listener#start` then raises before any call, and
  the `rescue` at main.rb:140 swallows it.
- `Dispatch.StartAll`: its own contract states only when the run succeeds
  and how many calls it then makes. The order of the calls is stated by
  `Dispatch.StartAllOrder`, and the trace on failure by
  `Dispatch.StartAllFailure`.
- `Dispatch.Start`: its own contract states only when `start` succeeds. The
  order of the calls is stated by `Dispatch.StartOrder`, and the trace on
  failure by `Dispatch.StartFailure`.
- `Builder.ConsumerLastWins`: states the law only when the earlier call
  succeeds. After a `consumer` call raises there is no builder to continue
  with: the exception ends `draw`, and nothing rescues around the routing
  block at main.rb:131-136.
