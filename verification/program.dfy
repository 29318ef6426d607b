/** The application at the bottom of `main.rb`: a `HelloWorld` handler class
    and a routing block binding topic "hello" to it from inside the block. */
module Program {
  import opened Wrappers
  import opened Names
  import opened Topics
  import opened RouteTable
  import opened Builder
  import opened Dispatch

  const HelloWorld: Handler := Handler("HelloWorld")

  /** The only application constant `const_get` can find. */
  const AppRegistry: Registry := map["HelloWorld" := HelloWorld]

  /** `topic "hello" do consumer "HelloWorld" end`. */
  const HelloRouting: seq<Stmt> := [TopicCall(Str("hello"), None, map[], [ConsumerCall(Str("HelloWorld"))])]

  const HelloRoutes: Collection := Collection(["hello"], map["hello" := [Topic("hello", "", Some(HelloWorld), map[])]])

  lemma HelloWorldIsConstant()
    ensures IsConstantName("HelloWorld")
  {
  }

  /** Drawing the routing block yields one topic, "hello", with one binding
      to `HelloWorld`, an empty channel and an empty config. */
  lemma HelloDraw()
    ensures Draw(AppRegistry, HelloRouting) == Success(HelloRoutes)
  {
    HelloWorldIsConstant();
    var rs := NewRouteSet();
    var inner := [ConsumerCall(Str("HelloWorld"))];
    var rs1 := Consumer(rs, AppRegistry, Str("HelloWorld")).value;
    assert Run(rs, AppRegistry, inner) == Run(rs1, AppRegistry, []);
    var t := Topic("hello", "", Some(HelloWorld), map[]);
    assert NewTopic(Str("hello"), Some(HelloWorld)) == t;
    assert Add(Empty(), Str("hello"), t) == HelloRoutes by {
      assert [] + ["hello"] == ["hello"];
    }
    assert DeclareTopic(rs, AppRegistry, Str("hello"), None, map[], inner)
      == Success(RouteSet(HelloRoutes, Some(HelloWorld)));
    assert Run(rs, AppRegistry, HelloRouting) == Run(RouteSet(HelloRoutes, Some(HelloWorld)), AppRegistry, []);
  }

  /** Starting it: one listener, 100 responds by `HelloWorld`, the i-th given
      "test message i for topic hello", and no exception. */
  lemma HelloStart()
    ensures Start(HelloRoutes).failure.None?
    ensures |Start(HelloRoutes).trace| == 100
    ensures forall i :: 0 <= i < 100 ==> Start(HelloRoutes).trace[i] == Respond(HelloWorld, Message("hello", i))
  {
    var l := Listener("hello", [Topic("hello", "", Some(HelloWorld), map[])]);
    assert Listeners(HelloRoutes) == [l];
    assert StartAll([l]) == Outcome(ListenerStart(l).trace + StartAll([]).trace, None);
    assert Start(HelloRoutes).trace == ListenerStart(l).trace;
    ListenerOrder(l);
    forall i | 0 <= i < 100
      ensures Start(HelloRoutes).trace[i] == Respond(HelloWorld, Message("hello", i))
    {
      assert Slot(i, 1, 0) == i;
    }
  }

  /** The commented-out `topic "", to: ""`: the empty string is not a
      constant name, so drawing raises before any binding is made. */
  lemma EmptyConsumerNameRejected()
    ensures Draw(AppRegistry, [TopicCall(Str(""), Some(Str("")), map[], [])]) == Failure(WrongConstantName(""))
  {
  }

  /** A `topic` call before any consumer was set builds fine with a nil
      consumer; the failure only appears when the listener dispatches the
      first message. */
  lemma NilConsumerFailsAtDispatch()
    ensures Draw(AppRegistry, [TopicCall(Sym("hello"), None, map[], [])]).Success?
    ensures var routes := Draw(AppRegistry, [TopicCall(Sym("hello"), None, map[], [])]).value;
      && routes.table["hello"] == [Topic("hello", "", None, map[])]
      && Start(routes) == Outcome([], Some(NoConsumer("hello")))
  {
  }
}
