/** `MQ::Listener` and `MQ::Consumer#start`: one listener per topic name in
    the route collection, each fed by the stub transport, handing every
    message to every binding of its topic in binding order. A handler
    invocation (`topic.consumer.new.respond(message)`) is recorded as an event
    in a trace. A binding whose consumer is nil makes `nil.new` raise
    NoMethodError, which ends the whole start; the trace then holds the events
    made before it. */
module Dispatch {
  import opened Wrappers
  import opened Topics
  import opened RouteTable
  import opened Decimal

  /** The stub transport's `100.times`. */
  const StubMessageCount: nat := 100

  /** `"test message #{i} for topic #{name}"`. */
  function Message(topic: string, i: nat): (r: string)
    ensures |r| > 13 + 11 + |topic|
    ensures r[..13] == "test message "
    ensures r[|r| - |topic| - 11..] == " for topic " + topic
    ensures DigitsValue(r[13..|r| - |topic| - 11]) == i
    ensures r[13..|r| - |topic| - 11] == NatToString(i)
  {
    var r := "test message " + NatToString(i) + " for topic " + topic;
    assert r[13..|r| - |topic| - 11] == NatToString(i);
    r
  }

  /** The stub `subscribe`'s message list. */
  function StubMessages(topic: string): (ms: seq<string>)
    ensures |ms| == StubMessageCount
    ensures forall i :: 0 <= i < |ms| ==> ms[i] == Message(topic, i)
  {
    seq(StubMessageCount, i requires 0 <= i => Message(topic, i))
  }

  /** Messages determine both their topic and their counter. */
  lemma MessageInjective(a: string, i: nat, b: string, j: nat)
    ensures Message(a, i) == Message(b, j) <==> a == b && i == j
  {
    var prefix := "test message ";
    assert Message(a, i) == prefix + (NatToString(i) + (" for topic " + a));
    assert Message(b, j) == prefix + (NatToString(j) + (" for topic " + b));
    if Message(a, i) == Message(b, j) {
      MessageParts(a, i, b, j);
    }
  }

  lemma MessageParts(a: string, i: nat, b: string, j: nat)
    requires "test message " + (NatToString(i) + (" for topic " + a))
          == "test message " + (NatToString(j) + (" for topic " + b))
    ensures a == b && i == j
  {
    var prefix := "test message ";
    var tailA := " for topic " + a;
    var tailB := " for topic " + b;
    assert NatToString(i) + tailA == (prefix + (NatToString(i) + tailA))[|prefix|..];
    assert NatToString(j) + tailB == (prefix + (NatToString(j) + tailB))[|prefix|..];
    SplitDigits(i, j, tailA, tailB);
    assert a == tailA[11..] == tailB[11..] == b;
  }

  datatype Listener = Listener(name: string, route: seq<Topic>)

  /** One `klass.respond(message)` call. */
  datatype Event = Respond(handler: Handler, message: string)

  /** NoMethodError from `nil.new`, tagged with the topic of the binding that
      was made while no consumer was current. Ruby's own error message names
      no topic; the tag is the model's. */
  datatype DispatchError = NoConsumer(topic: string)

  /** The responds made, and the exception that stopped dispatch, if any. */
  datatype Outcome = Outcome(trace: seq<Event>, failure: Option<DispatchError>)

  /** The index of the first binding without a consumer, or the list's length. */
  function FirstUnbound(route: seq<Topic>): (k: nat)
    ensures k <= |route|
    ensures forall j :: 0 <= j < k ==> route[j].consumer.Some?
    ensures k < |route| ==> route[k].consumer.None?
  {
    if route == [] || route[0].consumer.None? then 0 else 1 + FirstUnbound(route[1..])
  }

  predicate AllBound(route: seq<Topic>) {
    forall j :: 0 <= j < |route| ==> route[j].consumer.Some?
  }

  /** `@route.each { |topic| topic.consumer.new.respond(message) }` for one
      message: responds in binding order up to the first nil consumer. */
  function FanOut(route: seq<Topic>, msg: string): (o: Outcome)
    ensures |o.trace| == FirstUnbound(route)
    ensures forall j :: 0 <= j < |o.trace| ==> route[j].consumer.Some? && o.trace[j] == Respond(route[j].consumer.value, msg)
    ensures o.failure.None? <==> AllBound(route)
    ensures o.failure.Some? ==> FirstUnbound(route) < |route| && o.failure.value == NoConsumer(route[FirstUnbound(route)].name)
  {
    if route == [] then Outcome([], None)
    else if route[0].consumer.None? then Outcome([], Some(NoConsumer(route[0].name)))
    else
      var rest := FanOut(route[1..], msg);
      Outcome([Respond(route[0].consumer.value, msg)] + rest.trace, rest.failure)
  }

  /** The subscribe block applied to each message in delivery order; an
      exception stops delivery. */
  function Deliver(route: seq<Topic>, msgs: seq<string>): (o: Outcome)
    ensures forall e :: e in o.trace ==> e.message in msgs
    ensures AllBound(route) ==> o.failure.None? && |o.trace| == |msgs| * |route|
    ensures !AllBound(route) && |msgs| > 0 ==> o == FanOut(route, msgs[0])
    ensures msgs == [] ==> o == Outcome([], None)
  {
    if msgs == [] then Outcome([], None)
    else
      var first := FanOut(route, msgs[0]);
      if first.failure.Some? then first
      else
        var rest := Deliver(route, msgs[1..]);
        assert |msgs| * |route| == |route| + (|msgs| - 1) * |route|;
        Outcome(first.trace + rest.trace, rest.failure)
  }

  /** Position of binding `j`'s response to message `i` when every message
      is fanned out to `n` bindings. */
  function Slot(i: nat, n: nat, j: nat): nat {
    i * n + j
  }

  /** With every binding bound, the response to message `i` by binding `j`
      sits at position `i * |route| + j`: messages in delivery order, each
      fanned out in binding order. */
  lemma {:induction false} DeliverAt(route: seq<Topic>, msgs: seq<string>, i: nat, j: nat)
    requires AllBound(route) && i < |msgs| && j < |route|
    ensures Slot(i, |route|, j) < |Deliver(route, msgs).trace|
    ensures Deliver(route, msgs).trace[Slot(i, |route|, j)] == Respond(route[j].consumer.value, msgs[i])
  {
    DeliverSplit(route, msgs);
    var first := FanOut(route, msgs[0]).trace;
    var rest := Deliver(route, msgs[1..]).trace;
    if i == 0 {
      SlotNext(0, |route|, j);
      EventAt(first, rest, j);
    } else {
      DeliverAt(route, msgs[1..], i - 1, j);
      SlotNext(i - 1, |route|, j);
      EventAt(first, rest, |first| + Slot(i - 1, |route|, j));
      assert msgs[1..][i - 1] == msgs[i];
    }
  }

  lemma EventAt(a: seq<Event>, b: seq<Event>, k: nat)
    ensures k < |a| ==> (a + b)[k] == a[k]
    ensures |a| <= k < |a| + |b| ==> (a + b)[k] == b[k - |a|]
  {
  }

  lemma DeliverSplit(route: seq<Topic>, msgs: seq<string>)
    requires AllBound(route) && msgs != []
    ensures |FanOut(route, msgs[0]).trace| == |route|
    ensures Deliver(route, msgs).trace == FanOut(route, msgs[0]).trace + Deliver(route, msgs[1..]).trace
  {
  }

  lemma SlotNext(i: nat, n: nat, j: nat)
    ensures Slot(i + 1, n, j) == n + Slot(i, n, j)
    ensures Slot(0, n, j) == j
  {
  }

  /** `Listener#start` with the stub transport. */
  function ListenerStart(l: Listener): (o: Outcome)
    ensures AllBound(l.route) ==> o.failure.None? && |o.trace| == StubMessageCount * |l.route|
    ensures !AllBound(l.route) ==>
      && o.failure == Some(NoConsumer(l.route[FirstUnbound(l.route)].name))
      && |o.trace| == FirstUnbound(l.route)
      && forall j :: 0 <= j < |o.trace| ==> o.trace[j] == Respond(l.route[j].consumer.value, Message(l.name, 0))
  {
    Deliver(l.route, StubMessages(l.name))
  }

  /** Every respond a listener makes carries one of its topic's stub messages. */
  lemma ListenerMessages(l: Listener)
    ensures forall e :: e in ListenerStart(l).trace ==> exists i: nat :: i < StubMessageCount && e.message == Message(l.name, i)
  {
  }

  lemma DeliverOrder(route: seq<Topic>, msgs: seq<string>)
    requires AllBound(route)
    ensures forall i, j :: 0 <= i < |msgs| && 0 <= j < |route| ==>
      && Slot(i, |route|, j) < |Deliver(route, msgs).trace|
      && Deliver(route, msgs).trace[Slot(i, |route|, j)] == Respond(route[j].consumer.value, msgs[i])
  {
    forall i, j | 0 <= i < |msgs| && 0 <= j < |route|
      ensures Slot(i, |route|, j) < |Deliver(route, msgs).trace|
      ensures Deliver(route, msgs).trace[Slot(i, |route|, j)] == Respond(route[j].consumer.value, msgs[i])
    {
      DeliverAt(route, msgs, i, j);
    }
  }

  /** With every binding bound, stub message `i` reaches binding `j` at
      position `i * |route| + j` of the listener's trace. */
  lemma ListenerOrder(l: Listener)
    requires AllBound(l.route)
    ensures forall i, j :: 0 <= i < StubMessageCount && 0 <= j < |l.route| ==>
      && Slot(i, |l.route|, j) < |ListenerStart(l).trace|
      && ListenerStart(l).trace[Slot(i, |l.route|, j)] == Respond(l.route[j].consumer.value, Message(l.name, i))
  {
    DeliverOrder(l.route, StubMessages(l.name));
  }

  /** The listeners for the given keys, in order. */
  function ListenersFor(c: Collection, keys: seq<string>): (ls: seq<Listener>)
    ensures |ls| == |keys|
    ensures forall i :: 0 <= i < |ls| ==> ls[i] == Listener(keys[i], Lookup(c, keys[i]))
  {
    if keys == [] then [] else [Listener(keys[0], Lookup(c, keys[0]))] + ListenersFor(c, keys[1..])
  }

  /** `@route.collection.map { |topic_name, route| Listener.new(topic_name, route) }`. */
  function Listeners(c: Collection): (ls: seq<Listener>)
    ensures |ls| == |c.keys|
    ensures forall i :: 0 <= i < |ls| ==> ls[i].name == c.keys[i] && ls[i].route == Lookup(c, c.keys[i])
  {
    ListenersFor(c, c.keys)
  }

  /** Exactly one listener per distinct topic name, holding that name's list. */
  lemma OneListenerPerTopic(c: Collection)
    requires Valid(c)
    ensures forall i, j :: 0 <= i < j < |Listeners(c)| ==> Listeners(c)[i].name != Listeners(c)[j].name
    ensures forall k :: k in c.table <==> exists i :: 0 <= i < |Listeners(c)| && Listeners(c)[i].name == k
    ensures forall i :: 0 <= i < |Listeners(c)| ==> Listeners(c)[i].route == c.table[Listeners(c)[i].name]
  {
    var ls := Listeners(c);
    forall k | k in c.table
      ensures exists i :: 0 <= i < |ls| && ls[i].name == k
    {
      var i :| 0 <= i < |c.keys| && c.keys[i] == k;
      assert ls[i].name == k;
    }
  }

  /** `@listeners.each(&:start)`: listeners run one after another; an
      exception in one ends the run. */
  function StartAll(ls: seq<Listener>): (o: Outcome)
    ensures o.failure.None? <==> forall i :: 0 <= i < |ls| ==> AllBound(ls[i].route)
    ensures o.failure.None? ==> |o.trace| == StubMessageCount * TotalBindings(ls)
  {
    if ls == [] then Outcome([], None)
    else
      var first := ListenerStart(ls[0]);
      if first.failure.Some? then first
      else
        var rest := StartAll(ls[1..]);
        Outcome(first.trace + rest.trace, rest.failure)
  }

  /** The number of bindings over all listeners. */
  function TotalBindings(ls: seq<Listener>): nat {
    if ls == [] then 0 else |ls[0].route| + TotalBindings(ls[1..])
  }

  /** `Consumer#start`. */
  function Start(c: Collection): (o: Outcome)
    ensures o.failure.None? <==> forall i :: 0 <= i < |c.keys| ==> AllBound(Lookup(c, c.keys[i]))
  {
    StartAll(Listeners(c))
  }

  /** The respond was given one of `topic`'s stub messages. */
  ghost predicate About(e: Event, topic: string) {
    exists i: nat :: i < StubMessageCount && e.message == Message(topic, i)
  }

  /** The number of responds in `trace` about `topic`. */
  ghost function CountAbout(trace: seq<Event>, topic: string): nat {
    if trace == [] then 0 else (if About(trace[0], topic) then 1 else 0) + CountAbout(trace[1..], topic)
  }

  lemma {:induction false} CountAboutConcat(a: seq<Event>, b: seq<Event>, topic: string)
    ensures CountAbout(a + b, topic) == CountAbout(a, topic) + CountAbout(b, topic)
  {
    if a == [] {
      assert a + b == b;
    } else {
      assert (a + b)[1..] == a[1..] + b;
      CountAboutConcat(a[1..], b, topic);
    }
  }

  lemma {:induction false} CountAboutAll(trace: seq<Event>, topic: string, yes: bool)
    requires forall e :: e in trace ==> (About(e, topic) <==> yes)
    ensures CountAbout(trace, topic) == if yes then |trace| else 0
  {
    if trace != [] {
      assert trace[0] in trace;
      assert forall e :: e in trace[1..] ==> e in trace;
      CountAboutAll(trace[1..], topic, yes);
    }
  }

  /** A listener's responds are all about its own topic and about no other. */
  lemma ListenerCount(l: Listener, topic: string)
    ensures CountAbout(ListenerStart(l).trace, topic) == if l.name == topic then |ListenerStart(l).trace| else 0
  {
    ListenerMessages(l);
    var trace := ListenerStart(l).trace;
    forall e | e in trace
      ensures About(e, topic) <==> l.name == topic
    {
      var i: nat :| i < StubMessageCount && e.message == Message(l.name, i);
      if l.name != topic {
        forall i2: nat | i2 < StubMessageCount
          ensures e.message != Message(topic, i2)
        {
          MessageInjective(l.name, i, topic, i2);
        }
      }
    }
    CountAboutAll(trace, topic, l.name == topic);
  }

  /** The bindings of the listeners named `topic`. */
  function RoutesNamed(ls: seq<Listener>, topic: string): nat {
    if ls == [] then 0 else (if ls[0].name == topic then |ls[0].route| else 0) + RoutesNamed(ls[1..], topic)
  }

  lemma {:induction false} StartAllCount(ls: seq<Listener>, topic: string)
    requires StartAll(ls).failure.None?
    ensures CountAbout(StartAll(ls).trace, topic) == StubMessageCount * RoutesNamed(ls, topic)
  {
    if ls != [] {
      var first := ListenerStart(ls[0]);
      var rest := StartAll(ls[1..]);
      StartAllCount(ls[1..], topic);
      CountAboutConcat(first.trace, rest.trace, topic);
      ListenerCount(ls[0], topic);
    }
  }

  lemma {:induction false} ListenersNamed(c: Collection, keys: seq<string>, topic: string)
    requires forall i, j :: 0 <= i < j < |keys| ==> keys[i] != keys[j]
    ensures RoutesNamed(ListenersFor(c, keys), topic) == if topic in keys then |Lookup(c, topic)| else 0
  {
    if keys != [] {
      var ls := ListenersFor(c, keys);
      assert ls[1..] == ListenersFor(c, keys[1..]);
      ListenersNamed(c, keys[1..], topic);
      if keys[0] == topic {
        assert topic !in keys[1..];
      }
    }
  }

  /** `Consumer#start` on a drawn collection whose bindings all have a
      consumer: each topic receives exactly 100 responds per binding. */
  lemma StartCounts(c: Collection)
    requires Valid(c) && Start(c).failure.None?
    ensures forall topic :: CountAbout(Start(c).trace, topic) == StubMessageCount * |Lookup(c, topic)|
  {
    forall topic
      ensures CountAbout(Start(c).trace, topic) == StubMessageCount * |Lookup(c, topic)|
    {
      StartAllCount(Listeners(c), topic);
      ListenersNamed(c, c.keys, topic);
    }
  }

  /** Where listener `k`'s responds begin in a run where none failed. */
  function Offset(ls: seq<Listener>, k: nat): nat
    requires k <= |ls|
  {
    StubMessageCount * TotalBindings(ls[..k])
  }

  /** Listener `k`'s responds fill `trace` from `Offset(ls, k)` up to
      `Offset(ls, k + 1)`. */
  predicate SegmentOf(trace: seq<Event>, ls: seq<Listener>, k: nat)
    requires k < |ls|
  {
    && Offset(ls, k) <= Offset(ls, k + 1) <= |trace|
    && trace[Offset(ls, k)..Offset(ls, k + 1)] == ListenerStart(ls[k]).trace
  }

  /** A stretch of `b` found again after `a` in `a + b`. */
  lemma SliceShift(t: seq<Event>, a: seq<Event>, b: seq<Event>, lo: nat, hi: nat, x: nat, y: nat)
    requires t == a + b && x <= y <= |b| && lo == |a| + x && hi == |a| + y
    ensures lo <= hi <= |t| && t[lo..hi] == b[x..y]
  {
    assert t[lo..hi] == (a + b)[|a| + x..|a| + y];
  }

  lemma TotalBindingsPrefix(ls: seq<Listener>, k: nat)
    requires 0 < k <= |ls|
    ensures TotalBindings(ls[..k]) == |ls[0].route| + TotalBindings(ls[1..][..k - 1])
  {
    assert ls[..k][1..] == ls[1..][..k - 1];
  }

  lemma StartAllSplit(ls: seq<Listener>)
    requires ls != []
    ensures !AllBound(ls[0].route) ==> StartAll(ls) == ListenerStart(ls[0])
    ensures AllBound(ls[0].route) ==>
      StartAll(ls) == Outcome(ListenerStart(ls[0]).trace + StartAll(ls[1..]).trace, StartAll(ls[1..]).failure)
  {
  }

  lemma OffsetStep(ls: seq<Listener>, k: nat)
    requires 0 < k <= |ls|
    ensures Offset(ls, k) == StubMessageCount * |ls[0].route| + Offset(ls[1..], k - 1)
  {
    TotalBindingsPrefix(ls, k);
  }

  /** In a run where no listener failed, listener `k`'s responds are exactly
      the stretch after those of listeners `0..k-1`. */
  lemma {:induction false} StartAllAt(ls: seq<Listener>, k: nat)
    requires StartAll(ls).failure.None? && k < |ls|
    ensures SegmentOf(StartAll(ls).trace, ls, k)
  {
    StartAllSplit(ls);
    assert AllBound(ls[0].route);
    if k == 0 {
      StartAllAtFirst(ls);
    } else {
      StartAllAt(ls[1..], k - 1);
      StartAllAtStep(ls, k);
    }
  }

  lemma StartAllAtFirst(ls: seq<Listener>)
    requires ls != [] && AllBound(ls[0].route)
    ensures SegmentOf(StartAll(ls).trace, ls, 0)
  {
    StartAllSplit(ls);
    var first := ListenerStart(ls[0]).trace;
    OffsetStep(ls, 1);
    assert Offset(ls, 0) == 0 by { assert ls[..0] == []; }
    assert Offset(ls[1..], 0) == 0 by { assert ls[1..][..0] == []; }
    assert (first + StartAll(ls[1..]).trace)[0..|first|] == first;
  }

  lemma StartAllAtStep(ls: seq<Listener>, k: nat)
    requires 0 < k < |ls| && AllBound(ls[0].route)
    requires SegmentOf(StartAll(ls[1..]).trace, ls[1..], k - 1)
    ensures SegmentOf(StartAll(ls).trace, ls, k)
  {
    StartAllSplit(ls);
    var first := ListenerStart(ls[0]).trace;
    var rest := StartAll(ls[1..]).trace;
    var x, y := Offset(ls[1..], k - 1), Offset(ls[1..], k - 1 + 1);
    assert ls[1..][k - 1] == ls[k];
    assert x <= y <= |rest| && rest[x..y] == ListenerStart(ls[k]).trace;
    assert y == Offset(ls[1..], k);
    OffsetStep(ls, k);
    OffsetStep(ls, k + 1);
    assert |first| == StubMessageCount * |ls[0].route|;
    assert Offset(ls, k) == |first| + x && Offset(ls, k + 1) == |first| + y;
    var t := StartAll(ls).trace;
    assert t == first + rest;
    SliceShift(t, first, rest, Offset(ls, k), Offset(ls, k + 1), x, y);
  }

  /** `@listeners.each(&:start)` with no exception: the listeners' responds
      follow one another in listener order. */
  lemma StartAllOrder(ls: seq<Listener>)
    requires StartAll(ls).failure.None?
    ensures forall k :: 0 <= k < |ls| ==> SegmentOf(StartAll(ls).trace, ls, k)
  {
    forall k | 0 <= k < |ls|
      ensures SegmentOf(StartAll(ls).trace, ls, k)
    {
      StartAllAt(ls, k);
    }
  }

  /** The index of the first listener with a binding that has no consumer, or
      the number of listeners. */
  function FirstFailing(ls: seq<Listener>): (k: nat)
    ensures k <= |ls|
    ensures forall i :: 0 <= i < k ==> AllBound(ls[i].route)
    ensures k < |ls| ==> !AllBound(ls[k].route)
  {
    if ls == [] || !AllBound(ls[0].route) then 0 else 1 + FirstFailing(ls[1..])
  }

  /** When a run raises, it is the first listener with an unbound binding
      that raised: every listener before it ran to completion, then that
      listener made its partial responds and its exception ended the run. */
  lemma {:induction false} StartAllFailure(ls: seq<Listener>)
    requires StartAll(ls).failure.Some?
    ensures FirstFailing(ls) < |ls|
    ensures StartAll(ls[..FirstFailing(ls)]).failure.None?
    ensures StartAll(ls).trace == StartAll(ls[..FirstFailing(ls)]).trace + ListenerStart(ls[FirstFailing(ls)]).trace
    ensures StartAll(ls).failure == ListenerStart(ls[FirstFailing(ls)]).failure
  {
    var k := FirstFailing(ls);
    StartAllSplit(ls);
    if !AllBound(ls[0].route) {
      assert k == 0;
      assert ls[..0] == [];
      assert StartAll(ls[..0]) == Outcome([], None);
    } else {
      assert FirstFailing(ls[1..]) == k - 1;
      StartAllFailure(ls[1..]);
      StartAllFailureStep(ls, k);
    }
  }

  /** One step of `StartAllFailure`: a failure at listener `k - 1` of the
      tail is a failure at listener `k` of the whole list. */
  lemma StartAllFailureStep(ls: seq<Listener>, k: nat)
    requires 0 < k < |ls| && AllBound(ls[0].route)
    requires StartAll(ls[1..][..k - 1]).failure.None?
    requires StartAll(ls[1..]).trace == StartAll(ls[1..][..k - 1]).trace + ListenerStart(ls[1..][k - 1]).trace
    requires StartAll(ls[1..]).failure == ListenerStart(ls[1..][k - 1]).failure
    ensures StartAll(ls[..k]).failure.None?
    ensures StartAll(ls).trace == StartAll(ls[..k]).trace + ListenerStart(ls[k]).trace
    ensures StartAll(ls).failure == ListenerStart(ls[k]).failure
  {
    StartAllSplit(ls);
    StartAllPrefix(ls, k);
    assert ls[1..][k - 1] == ls[k];
    ConcatAssoc(ListenerStart(ls[0]).trace, StartAll(ls[1..][..k - 1]).trace, ListenerStart(ls[k]).trace);
  }

  lemma ConcatAssoc(a: seq<Event>, b: seq<Event>, c: seq<Event>)
    ensures a + (b + c) == (a + b) + c
  {
  }

  lemma StartAllPrefix(ls: seq<Listener>, k: nat)
    requires 0 < k <= |ls| && AllBound(ls[0].route)
    ensures StartAll(ls[..k]) ==
      Outcome(ListenerStart(ls[0]).trace + StartAll(ls[1..][..k - 1]).trace, StartAll(ls[1..][..k - 1]).failure)
  {
    assert ls[..k][0] == ls[0];
    assert ls[..k][1..] == ls[1..][..k - 1];
    StartAllSplit(ls[..k]);
  }

  /** `Consumer#start` with no exception: the listeners' responds follow one
      another in the hash's key order. */
  lemma StartOrder(c: Collection)
    requires Start(c).failure.None?
    ensures |Listeners(c)| == |c.keys|
    ensures forall k :: 0 <= k < |c.keys| ==>
      Listeners(c)[k] == Listener(c.keys[k], Lookup(c, c.keys[k]))
    ensures forall k :: 0 <= k < |c.keys| ==> SegmentOf(Start(c).trace, Listeners(c), k)
  {
    StartAllOrder(Listeners(c));
  }

  /** `Consumer#start` raising: the first topic in key order with an unbound
      binding raises, after every earlier topic ran to completion. */
  lemma StartFailure(c: Collection)
    requires Start(c).failure.Some?
    ensures var k := FirstFailing(Listeners(c));
      && k < |c.keys|
      && (forall i :: 0 <= i < k ==> AllBound(Lookup(c, c.keys[i])))
      && !AllBound(Lookup(c, c.keys[k]))
      && StartAll(Listeners(c)[..k]).failure.None?
      && Start(c).trace == StartAll(Listeners(c)[..k]).trace + ListenerStart(Listener(c.keys[k], Lookup(c, c.keys[k]))).trace
      && Start(c).failure == Some(NoConsumer(Lookup(c, c.keys[k])[FirstUnbound(Lookup(c, c.keys[k]))].name))
  {
    var ls := Listeners(c);
    StartAllFailure(ls);
    var k := FirstFailing(ls);
    assert ls[k] == Listener(c.keys[k], Lookup(c, c.keys[k]));
  }
}
