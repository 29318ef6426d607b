/** `MQ::RouteSet`, the builder the routing block runs against. Its state is
    the route collection plus the sticky "current consumer" register that
    `consumer` sets and `topic` reads. The routing block itself is a list of
    DSL statements; because the block runs with the builder as receiver, a
    nested block may itself call `topic`. */
module Builder {
  import opened Wrappers
  import opened Names
  import opened Topics
  import opened RouteTable

  /** The handler classes the application defines, by constant name. Each is
      taken to be a class whose `new` needs no argument and whose instances
      have `respond`. */
  type Registry = map<string, Handler>

  /** The two ways `const_get` raises NameError. */
  datatype BuildError =
    | WrongConstantName(name: string)
    | UninitializedConstant(name: string)

  /** `Object.const_get(s)` for a String `s`. */
  function Resolve(reg: Registry, s: string): (r: Result<Handler, BuildError>)
    ensures r.Success? <==> IsConstantName(s) && s in reg
    ensures r.Success? ==> r.value == reg[s]
    ensures !IsConstantName(s) ==> r == Failure(WrongConstantName(s))
    ensures IsConstantName(s) && s !in reg ==> r == Failure(UninitializedConstant(s))
  {
    if !IsConstantName(s) then Failure(WrongConstantName(s))
    else if s !in reg then Failure(UninitializedConstant(s))
    else Success(reg[s])
  }

  datatype RouteSet = RouteSet(route: Collection, current: Option<Handler>)

  /** `RouteSet.new`: an empty collection and no current consumer. */
  function NewRouteSet(): (rs: RouteSet)
    ensures Valid(rs.route)
    ensures forall k :: Lookup(rs.route, k) == []
    ensures rs.current.None?
  {
    RouteSet(Empty(), None)
  }

  /** One statement of a routing block: a `topic` call (its `:to` option kept
      apart from the other options, and its block, empty when none is given)
      or a `consumer` call. */
  datatype Stmt =
    | TopicCall(name: Name, to: Option<Name>, options: Config, block: seq<Stmt>)
    | ConsumerCall(respond: Name)

  /** `consumer(respond)`: a Symbol is turned into a String and resolved by
      exact name. On success it becomes the current consumer and the routes
      are untouched; on failure the builder is dropped with the exception,
      which ends `draw`. */
  function Consumer(rs: RouteSet, reg: Registry, respond: Name): (r: Result<RouteSet, BuildError>)
    ensures r.Success? <==> Resolve(reg, ToS(respond)).Success?
    ensures r.Success? ==> r.value.route == rs.route && r.value.current == Some(reg[respond.text])
    ensures r.Failure? ==> r.error == Resolve(reg, respond.text).error
  {
    var h :- Resolve(reg, ToS(respond));
    Success(rs.(current := Some(h)))
  }

  /** `topic(name, **option, &block)`: applies `:to` first, then runs the
      block, then appends a binding that captures whichever consumer is current
      at that point. Options other than `:to` are not used. */
  function DeclareTopic(rs: RouteSet, reg: Registry, name: Name, to: Option<Name>, options: Config, block: seq<Stmt>)
    : (r: Result<RouteSet, BuildError>)
    ensures to.Some? && Resolve(reg, ToS(to.value)).Failure? ==> r == Failure(Resolve(reg, ToS(to.value)).error)
    ensures r.Success? ==> ToS(name) in r.value.route.table
    ensures r.Success? ==> var l := r.value.route.table[ToS(name)]; |l| > 0 && l[|l| - 1] == NewTopic(name, r.value.current)
    ensures r.Success? ==> forall k :: Lookup(rs.route, k) <= Lookup(r.value.route, k)
    ensures r.Success? && Valid(rs.route) ==> Valid(r.value.route)
    ensures r.Success? && (to.Some? || rs.current.Some?) ==> r.value.current.Some?
    decreases block, 1
  {
    var rs1 :- if to.Some? then Consumer(rs, reg, to.value) else Success(rs);
    var rs2 :- Run(rs1, reg, block);
    Success(rs2.(route := Add(rs2.route, name, NewTopic(name, rs2.current))))
  }

  /** Running a routing block statement by statement; the first exception
      aborts the rest. */
  function Run(rs: RouteSet, reg: Registry, block: seq<Stmt>): (r: Result<RouteSet, BuildError>)
    ensures r.Success? ==> forall k :: Lookup(rs.route, k) <= Lookup(r.value.route, k)
    ensures r.Success? && Valid(rs.route) ==> Valid(r.value.route)
    ensures r.Success? && rs.current.Some? ==> r.value.current.Some?
    decreases block, 0
  {
    if block == [] then Success(rs)
    else
      match block[0]
      case ConsumerCall(respond) =>
        var rs1 :- Consumer(rs, reg, respond);
        Run(rs1, reg, block[1..])
      case TopicCall(name, to, options, inner) =>
        var rs1 :- DeclareTopic(rs, reg, name, to, options, inner);
        Run(rs1, reg, block[1..])
  }

  /** `Consumer#draw(&block)`: runs the block against a fresh builder and
      yields the route collection it built. */
  function Draw(reg: Registry, block: seq<Stmt>): (r: Result<Collection, BuildError>)
    ensures r.Success? ==> Valid(r.value)
  {
    var rs :- Run(NewRouteSet(), reg, block);
    Success(rs.route)
  }

  /** `collection`: the routes' entries in insertion order. */
  function CollectionOf(rs: RouteSet): (entries: seq<(string, seq<Topic>)>)
    requires Valid(rs.route)
    ensures |entries| == |rs.route.keys|
    ensures forall i :: 0 <= i < |entries| ==> entries[i].0 == rs.route.keys[i]
    ensures forall i :: 0 <= i < |entries| ==> entries[i].1 == rs.route.table[entries[i].0]
  {
    All(rs.route)
  }

  /** No statement of the block, nested blocks included, sets the current
      consumer: there is no `consumer` call and no `topic` with `:to`. */
  predicate NoConsumerSet(block: seq<Stmt>)
    decreases block
  {
    || block == []
    || (&& block[0].TopicCall?
        && block[0].to.None?
        && NoConsumerSet(block[0].block)
        && NoConsumerSet(block[1..]))
  }

  /** A `topic` without `:to` whose block sets no consumer cannot raise and
      leaves the current consumer as it was. */
  lemma {:induction false} TopicKeepsCurrent(rs: RouteSet, reg: Registry, name: Name, options: Config, block: seq<Stmt>)
    requires NoConsumerSet(block)
    ensures DeclareTopic(rs, reg, name, None, options, block).Success?
    ensures DeclareTopic(rs, reg, name, None, options, block).value.current == rs.current
    decreases block, 1
  {
    RunKeepsCurrent(rs, reg, block);
  }

  /** A block that sets no consumer cannot raise and leaves the current
      consumer as it was. */
  lemma {:induction false} RunKeepsCurrent(rs: RouteSet, reg: Registry, block: seq<Stmt>)
    requires NoConsumerSet(block)
    ensures Run(rs, reg, block).Success?
    ensures Run(rs, reg, block).value.current == rs.current
    decreases block, 0
  {
    if block != [] {
      var s := block[0];
      TopicKeepsCurrent(rs, reg, s.name, s.options, s.block);
      RunKeepsCurrent(DeclareTopic(rs, reg, s.name, None, s.options, s.block).value, reg, block[1..]);
    }
  }

  /** Running two blocks one after the other is running their concatenation;
      an exception in the first skips the second. */
  lemma {:induction false} RunConcat(rs: RouteSet, reg: Registry, a: seq<Stmt>, b: seq<Stmt>)
    ensures Run(rs, reg, a).Failure? ==> Run(rs, reg, a + b) == Run(rs, reg, a)
    ensures Run(rs, reg, a).Success? ==> Run(rs, reg, a + b) == Run(Run(rs, reg, a).value, reg, b)
    decreases a
  {
    if a == [] {
      assert a + b == b;
    } else {
      assert (a + b)[0] == a[0];
      assert (a + b)[1..] == a[1..] + b;
      match a[0]
      case ConsumerCall(respond) =>
        var c := Consumer(rs, reg, respond);
        if c.Success? {
          RunConcat(c.value, reg, a[1..], b);
        }
      case TopicCall(name, to, options, inner) =>
        var c := DeclareTopic(rs, reg, name, to, options, inner);
        if c.Success? {
          RunConcat(c.value, reg, a[1..], b);
        }
    }
  }

  /** With no `:to`, a `topic` whose block sets no consumer reuses the
      current consumer, which may still be nil; nothing is raised and the
      register is kept. With no block at all, the binding is simply appended
      to the name's list. */
  lemma StickyConsumer(rs: RouteSet, reg: Registry, name: Name, options: Config, block: seq<Stmt>)
    requires NoConsumerSet(block)
    ensures DeclareTopic(rs, reg, name, None, options, block).Success?
    ensures var r := DeclareTopic(rs, reg, name, None, options, block).value;
      && r.current == rs.current
      && var l := r.route.table[ToS(name)]; l[|l| - 1] == NewTopic(name, rs.current)
    ensures block == [] ==>
      DeclareTopic(rs, reg, name, None, options, block).value.route.table[ToS(name)]
        == Lookup(rs.route, ToS(name)) + [NewTopic(name, rs.current)]
  {
    TopicKeepsCurrent(rs, reg, name, options, block);
  }

  /** `topic name, to: x` whose block sets no consumer binds `x`, and `x`
      stays current. */
  lemma ToBinds(rs: RouteSet, reg: Registry, name: Name, to: Name, options: Config, block: seq<Stmt>)
    requires Resolve(reg, ToS(to)).Success? && NoConsumerSet(block)
    ensures DeclareTopic(rs, reg, name, Some(to), options, block).Success?
    ensures var r := DeclareTopic(rs, reg, name, Some(to), options, block).value;
      && r.current == Some(reg[to.text])
      && var l := r.route.table[ToS(name)]; l[|l| - 1] == NewTopic(name, Some(reg[to.text]))
  {
    RunKeepsCurrent(Consumer(rs, reg, to).value, reg, block);
  }

  /** `:to` is applied before the block runs, so a block ending in a
      `consumer` call binds that consumer, whatever `:to` and the rest of the
      block said; the call changes nothing else about whether `topic`
      raises. */
  lemma BlockOverridesTo(rs: RouteSet, reg: Registry, name: Name, to: Option<Name>, options: Config, block: seq<Stmt>, last: Name)
    requires Resolve(reg, ToS(last)).Success?
    ensures DeclareTopic(rs, reg, name, to, options, block + [ConsumerCall(last)]).Success?
      <==> DeclareTopic(rs, reg, name, to, options, block).Success?
    ensures DeclareTopic(rs, reg, name, to, options, block + [ConsumerCall(last)]).Success? ==>
      var r := DeclareTopic(rs, reg, name, to, options, block + [ConsumerCall(last)]).value;
      && r.current == Some(reg[last.text])
      && var l := r.route.table[ToS(name)]; l[|l| - 1] == NewTopic(name, Some(reg[last.text]))
  {
    var c1 := if to.Some? then Consumer(rs, reg, to.value) else Success(rs);
    if c1.Success? {
      var rs1 := c1.value;
      RunConcat(rs1, reg, block, [ConsumerCall(last)]);
      var r2 := Run(rs1, reg, block);
      if r2.Success? {
        var rs3 := Consumer(r2.value, reg, last).value;
        assert Run(r2.value, reg, [ConsumerCall(last)]) == Run(rs3, reg, []);
      }
    }
  }

  /** A later `consumer` call decides the outcome on its own: whether it
      succeeds or raises, the earlier call makes no difference. */
  lemma ConsumerLastWins(rs: RouteSet, reg: Registry, a: Name, b: Name)
    requires Resolve(reg, ToS(a)).Success?
    ensures Consumer(Consumer(rs, reg, a).value, reg, b) == Consumer(rs, reg, b)
  {
  }
}
