/** A second, list-based reading of a routing block: instead of building the
    hash, it lists the bindings the block makes, in the order the `topic`
    calls complete, together with the final current consumer. The lemmas here
    show that the builder's collection is exactly this list grouped by name,
    which is what "one binding per call, in call order, never overwritten"
    means. */
module Reference {
  import opened Wrappers
  import opened Names
  import opened Topics
  import opened RouteTable
  import opened Builder

  /** The current consumer after `consumer(respond)`. */
  function SetCurrent(reg: Registry, respond: Name): (r: Result<Option<Handler>, BuildError>)
    ensures r.Success? ==> r.value.Some?
  {
    var h :- Resolve(reg, ToS(respond));
    Success(Some(h))
  }

  /** The bindings one `topic` call makes (its block's first, its own last)
      and the consumer current afterwards. */
  function EmitTopic(reg: Registry, cur: Option<Handler>, name: Name, to: Option<Name>, block: seq<Stmt>)
    : (r: Result<(seq<Topic>, Option<Handler>), BuildError>)
    ensures r.Success? ==> |r.value.0| == 1 + CountBlock(block)
    ensures r.Success? ==> forall t :: t in r.value.0 ==> t.channel == "" && t.config == map[]
    ensures r.Success? ==> r.value.0[|r.value.0| - 1] == NewTopic(name, r.value.1)
    decreases block, 1
  {
    var cur1 :- if to.Some? then SetCurrent(reg, to.value) else Success(cur);
    var inner :- EmitBlock(reg, cur1, block);
    Success((inner.0 + [NewTopic(name, inner.1)], inner.1))
  }

  function EmitBlock(reg: Registry, cur: Option<Handler>, block: seq<Stmt>)
    : (r: Result<(seq<Topic>, Option<Handler>), BuildError>)
    ensures r.Success? ==> |r.value.0| == CountBlock(block)
    ensures r.Success? ==> forall t :: t in r.value.0 ==> t.channel == "" && t.config == map[]
    decreases block, 0
  {
    if block == [] then Success(([], cur))
    else
      match block[0]
      case ConsumerCall(respond) =>
        var cur1 :- SetCurrent(reg, respond);
        EmitBlock(reg, cur1, block[1..])
      case TopicCall(name, to, options, inner) =>
        var first :- EmitTopic(reg, cur, name, to, inner);
        var rest :- EmitBlock(reg, first.1, block[1..]);
        Success((first.0 + rest.0, rest.1))
  }

  /** The number of `topic` calls in a block, nested ones included. */
  function CountBlock(block: seq<Stmt>): nat
    decreases block
  {
    if block == [] then 0
    else
      (match block[0]
       case ConsumerCall(_) => 0
       case TopicCall(_, _, _, inner) => 1 + CountBlock(inner))
      + CountBlock(block[1..])
  }

  /** The number of `topic` calls in a block whose name normalises to `key`. */
  function CountNamed(block: seq<Stmt>, key: string): nat
    decreases block
  {
    if block == [] then 0
    else
      (match block[0]
       case ConsumerCall(_) => 0
       case TopicCall(name, _, _, inner) => (if ToS(name) == key then 1 else 0) + CountNamed(inner, key))
      + CountNamed(block[1..], key)
  }

  lemma AddAllSingle(c: Collection, t: Topic)
    ensures AddAll(c, [t]) == Add(c, Str(t.name), t)
  {
  }

  /** The builder and the list reading agree on every block: the builder
      succeeds exactly when the list reading does, and then its routes are the
      old routes with the listed bindings added in order. */
  lemma {:induction false} TopicAgrees(rs: RouteSet, reg: Registry, name: Name, to: Option<Name>, options: Config, block: seq<Stmt>)
    ensures DeclareTopic(rs, reg, name, to, options, block).Success? <==> EmitTopic(reg, rs.current, name, to, block).Success?
    ensures DeclareTopic(rs, reg, name, to, options, block).Success? ==>
      var e := EmitTopic(reg, rs.current, name, to, block).value;
      DeclareTopic(rs, reg, name, to, options, block).value == RouteSet(AddAll(rs.route, e.0), e.1)
    decreases block, 1
  {
    var c1 := if to.Some? then Consumer(rs, reg, to.value) else Success(rs);
    if c1.Success? {
      var rs1 := c1.value;
      RunAgrees(rs1, reg, block);
      var r2 := Run(rs1, reg, block);
      if r2.Success? {
        var e := EmitBlock(reg, rs1.current, block).value;
        var t := NewTopic(name, e.1);
        AddAllSingle(AddAll(rs1.route, e.0), t);
        AddAllConcat(rs1.route, e.0, [t]);
      }
    }
  }

  lemma {:induction false} RunAgrees(rs: RouteSet, reg: Registry, block: seq<Stmt>)
    ensures Run(rs, reg, block).Success? <==> EmitBlock(reg, rs.current, block).Success?
    ensures Run(rs, reg, block).Success? ==>
      var e := EmitBlock(reg, rs.current, block).value;
      Run(rs, reg, block).value == RouteSet(AddAll(rs.route, e.0), e.1)
    decreases block, 0
  {
    if block != [] {
      match block[0]
      case ConsumerCall(respond) =>
        var c1 := Consumer(rs, reg, respond);
        if c1.Success? {
          RunAgrees(c1.value, reg, block[1..]);
        }
      case TopicCall(name, to, options, inner) =>
        TopicAgrees(rs, reg, name, to, options, inner);
        var c1 := DeclareTopic(rs, reg, name, to, options, inner);
        if c1.Success? {
          var e1 := EmitTopic(reg, rs.current, name, to, inner).value;
          RunAgrees(c1.value, reg, block[1..]);
          if Run(c1.value, reg, block[1..]).Success? {
            var e2 := EmitBlock(reg, e1.1, block[1..]).value;
            AddAllConcat(rs.route, e1.0, e2.0);
          }
        }
    }
  }

  /** Grouping the listed bindings by name counts the `topic` calls with that
      name. */
  lemma {:induction false} EmitTopicNamed(reg: Registry, cur: Option<Handler>, name: Name, to: Option<Name>, block: seq<Stmt>, key: string)
    requires EmitTopic(reg, cur, name, to, block).Success?
    ensures |Filter(EmitTopic(reg, cur, name, to, block).value.0, key)| == (if ToS(name) == key then 1 else 0) + CountNamed(block, key)
    decreases block, 1
  {
    var cur1 := (if to.Some? then SetCurrent(reg, to.value) else Success(cur)).value;
    EmitBlockNamed(reg, cur1, block, key);
    var inner := EmitBlock(reg, cur1, block).value;
    var t := NewTopic(name, inner.1);
    FilterConcat(inner.0, [t], key);
    assert Filter([t], key) == (if t.name == key then [t] else []) + Filter([t][1..], key);
  }

  lemma {:induction false} EmitBlockNamed(reg: Registry, cur: Option<Handler>, block: seq<Stmt>, key: string)
    requires EmitBlock(reg, cur, block).Success?
    ensures |Filter(EmitBlock(reg, cur, block).value.0, key)| == CountNamed(block, key)
    decreases block, 0
  {
    if block != [] {
      match block[0]
      case ConsumerCall(respond) =>
        EmitBlockNamed(reg, SetCurrent(reg, respond).value, block[1..], key);
      case TopicCall(name, to, options, inner) =>
        EmitTopicNamed(reg, cur, name, to, inner, key);
        var first := EmitTopic(reg, cur, name, to, inner).value;
        EmitBlockNamed(reg, first.1, block[1..], key);
        var rest := EmitBlock(reg, first.1, block[1..]).value;
        FilterConcat(first.0, rest.0, key);
    }
  }

  /** A drawn routing block: each name's list is that name's bindings in the
      order their `topic` calls completed, one per call, and every binding has
      the empty channel and empty config whatever options were passed. */
  lemma DrawGroups(reg: Registry, block: seq<Stmt>)
    ensures Draw(reg, block).Success? <==> EmitBlock(reg, None, block).Success?
    ensures Draw(reg, block).Success? ==>
      forall key :: Lookup(Draw(reg, block).value, key) == Filter(EmitBlock(reg, None, block).value.0, key)
    ensures Draw(reg, block).Success? ==>
      forall key :: |Lookup(Draw(reg, block).value, key)| == CountNamed(block, key)
    ensures Draw(reg, block).Success? ==>
      forall key, t :: t in Lookup(Draw(reg, block).value, key) ==> t.name == key && t.channel == "" && t.config == map[]
  {
    var rs := NewRouteSet();
    RunAgrees(rs, reg, block);
    if Draw(reg, block).Success? {
      var e := EmitBlock(reg, None, block).value;
      forall key
        ensures Lookup(Draw(reg, block).value, key) == Filter(e.0, key)
        ensures |Lookup(Draw(reg, block).value, key)| == CountNamed(block, key)
      {
        AddAllGroups(rs.route, e.0, key);
        EmitBlockNamed(reg, None, block, key);
      }
    }
  }
}
