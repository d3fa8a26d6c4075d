/** The `Component` of the newest router (src/lib/Component.js, shipped as
    dist/lib/Component.js): an event emitter that owns one MQTT client, a list of
    routes and the promise `start` returns. Client events are methods; the calls the
    component makes on the client are logged in `calls`, the handler invocations and
    the `message` events it emits in `signals`. */
module Component {
  import opened Js
  import opened Placeholder
  import opened Route
  import opened RouteTable

  /** Which of the two builds: they differ only in how a route calls its handler. */
  datatype Build = Source | Shipped

  /** `_mqttClient`: none, a client that has not connected yet (only the `connect` and
      `error` once-listeners of `start` are attached), or a client that connected once
      and carries the listeners of `_attachListeners`, with its `connected` flag. */
  datatype Client = NoClient | Connecting | Listening(connected: bool)

  /** The promise the last `start` returned. `Subscribing` waits for the broker to
      grant the subscription to the routes. */
  datatype StartPromise =
    | Unstarted
    | Pending
    | Subscribing
    | Resolved(sessionPresent: bool)
    | Rejected(error: Exception)

  /** A call the component makes on the MQTT client. `Connect(None)` is
      `mqtt.connect(options)` without a URL. */
  datatype Call =
    | Connect(url: Option<string>)
    | Subscribe(filters: TopicArg, qos: int)
    | Unsubscribe(filters: TopicArg)
    | Publish(topic: string, payload: string, qos: int, retain: bool)
    | End(force: bool)

  /** A route handler invocation, or a `message` event for a message no route matched. */
  datatype Signal = Invoked(invocation: Invocation) | Message(packet: Packet)

  const NotConnected := Failure("not connected to broker")

  /** The argument of `start(url)`: left out (or undefined), an explicit null, or a URL. */
  datatype UrlArg = Omitted | NullUrl | Url(url: string)

  /** The routes of `rs` whose `subscribe` option is set, in order: each one as often as
      it occurs in `rs`, and no other. */
  function SubscribingRoutes(rs: seq<Route>): (s: seq<Route>)
    ensures forall x :: multiset(s)[x] == if x.options.subscribe then multiset(rs)[x] else 0
    decreases |rs|
  {
    if rs == [] then []
    else
      var last := rs[|rs| - 1];
      assert rs == rs[..|rs| - 1] + [last];
      SubscribingRoutes(rs[..|rs| - 1]) + (if last.options.subscribe then [last] else [])
  }

  /** The subscriptions `route` requests when it runs while connected with
      `subscribeWhileConnected` set: `_subscribeToRoutes` on each new route alone. */
  function ImmediateCalls(lib: TopicLib, componentId: string, rs: seq<Route>): seq<Call>
    decreases |rs|
  {
    if rs == [] then []
    else
      var last := rs[|rs| - 1];
      ImmediateCalls(lib, componentId, rs[..|rs| - 1])
      + (if last.options.subscribe
         then [Subscribe(NormalizeTopic(componentId, Keyed([(Filter(lib, last), last.options.qos)])), 0)]
         else [])
  }

  /** `route` sends exactly one subscription per new subscribing route, in order: the
      subscription object of that route alone, normalised, with QoS 0. */
  lemma {:induction false} ImmediateCallsPerRoute(lib: TopicLib, componentId: string, rs: seq<Route>)
    ensures var r, s := ImmediateCalls(lib, componentId, rs), SubscribingRoutes(rs);
            && |r| == |s|
            && forall i :: 0 <= i < |r| ==> r[i] == Subscribe(NormalizeTopic(componentId, Keyed(Subscriptions(lib, [s[i]]))), 0)
    decreases |rs|
  {
    if rs != [] {
      var last := rs[|rs| - 1];
      assert [last][..0] == [];
      ImmediateCallsPerRoute(lib, componentId, rs[..|rs| - 1]);
    }
  }

  /** Appending to `route`'s output: one call more exactly when the new route subscribes. */
  lemma {:induction false} ImmediateCallsAppend(lib: TopicLib, componentId: string, xs: seq<Route>, ys: seq<Route>)
    ensures ImmediateCalls(lib, componentId, xs + ys) == ImmediateCalls(lib, componentId, xs) + ImmediateCalls(lib, componentId, ys)
    decreases |ys|
  {
    if ys == [] {
      assert xs + ys == xs;
    } else {
      assert (xs + ys)[..|xs + ys| - 1] == xs + ys[..|ys| - 1];
      ImmediateCallsAppend(lib, componentId, xs, ys[..|ys| - 1]);
    }
  }

  /** `DeclareAll` on a longer list continues where the shorter one left off, unless the
      shorter one already stopped at an error. */
  lemma DeclareAllAppend(componentId: string, xs: seq<RouteSpec>, ys: seq<RouteSpec>)
    ensures DeclareAll(componentId, xs + ys)
            == if DeclareAll(componentId, xs).1.Some? then DeclareAll(componentId, xs)
               else (DeclareAll(componentId, xs).0 + DeclareAll(componentId, ys).0, DeclareAll(componentId, ys).1)
  {
    DeclaredAppend(Construct(componentId), xs, ys);
  }

  /** Declaring items `..k + 1` continues from items `..k` with item `k` alone. */
  lemma DeclarePrefix(componentId: string, items: seq<RouteSpec>, k: nat)
    requires k < |items| && DeclareAll(componentId, items[..k]).1 == None
    ensures DeclareAll(componentId, items[..k + 1])
            == (DeclareAll(componentId, items[..k]).0 + DeclareAll(componentId, [items[k]]).0, DeclareAll(componentId, [items[k]]).1)
  {
    assert items[..k + 1] == items[..k] + [items[k]];
    DeclareAllAppend(componentId, items[..k], [items[k]]);
  }

  /** Once a prefix of the items was rejected, the rest of them changes nothing. */
  lemma DeclareStops(componentId: string, items: seq<RouteSpec>, j: nat)
    requires j <= |items| && DeclareAll(componentId, items[..j]).1.Some?
    ensures DeclareAll(componentId, items) == DeclareAll(componentId, items[..j])
  {
    assert items[..j] + items[j..] == items;
    DeclareAllAppend(componentId, items[..j], items[j..]);
  }

  /** One step of `route`'s loop: declaring item `k` after items `..k` extends both the
      routes and the immediate subscriptions, and a rejection there ends the whole call. */
  lemma DeclareStep(lib: TopicLib, componentId: string, items: seq<RouteSpec>, k: nat, routes0: seq<Route>, calls0: seq<Call>)
    requires k < |items| && DeclareAll(componentId, items[..k]).1 == None
    ensures var done, one, next := DeclareAll(componentId, items[..k]), DeclareAll(componentId, [items[k]]), DeclareAll(componentId, items[..k + 1]);
            && next.1 == one.1
            && routes0 + done.0 + one.0 == routes0 + next.0
            && calls0 + ImmediateCalls(lib, componentId, done.0) + ImmediateCalls(lib, componentId, one.0)
               == calls0 + ImmediateCalls(lib, componentId, next.0)
            && (one.1.Some? ==> DeclareAll(componentId, items) == next)
  {
    var done, one, next := DeclareAll(componentId, items[..k]), DeclareAll(componentId, [items[k]]), DeclareAll(componentId, items[..k + 1]);
    DeclarePrefix(componentId, items, k);
    ImmediateCallsAppend(lib, componentId, done.0, one.0);
    assert routes0 + done.0 + one.0 == routes0 + (done.0 + one.0);
    assert calls0 + ImmediateCalls(lib, componentId, done.0) + ImmediateCalls(lib, componentId, one.0)
           == calls0 + (ImmediateCalls(lib, componentId, done.0) + ImmediateCalls(lib, componentId, one.0));
    if one.1.Some? {
      DeclareStops(componentId, items, k + 1);
    }
  }

  predicate Declares(rs: seq<Route>, h: nat) {
    exists j :: 0 <= j < |rs| && rs[j].handler == h
  }

  /** Declaring more routes keeps every handler declared. */
  lemma DeclaresGrow(rs: seq<Route>, more: seq<Route>, h: nat)
    requires Declares(rs, h)
    ensures Declares(rs + more, h)
  {
    var j :| 0 <= j < |rs| && rs[j].handler == h;
    assert (rs + more)[j] == rs[j];
  }

  class Component {
    const componentId: string
    const subscribeWhileConnected: bool
    /** `this._options.url || null`. */
    const defaultUrl: Option<string>
    const lib: TopicLib
    const build: Build

    var client: Client
    var routes: seq<Route>
    var promise: StartPromise
    var calls: seq<Call>
    var signals: seq<Signal>

    /** The invariant every event keeps: a `start` promise is pending exactly while its
        client has not connected, and every handler invoked belongs to a declared route. */
    predicate Valid()
      reads this
    {
      && (promise.Pending? <==> client.Connecting?)
      && (promise.Unstarted? ==> client.NoClient?)
      && forall i :: 0 <= i < |signals| && signals[i].Invoked? ==> Declares(routes, signals[i].invocation.handler)
    }

    /** The `connected` getter. */
    function Connected(): (r: bool)
      reads this
      ensures r <==> client == Listening(true)
    {
      client.Listening? && client.connected
    }

    /** `new Component(componentId, options)`: `subscribeWhileConnected` defaults to
        false, an empty URL option counts as none. */
    constructor(componentId: string, subscribeWhileConnected: Option<bool>, url: Option<string>, lib: TopicLib, build: Build)
      ensures Valid()
      ensures this.componentId == componentId && this.lib == lib && this.build == build
      ensures this.subscribeWhileConnected == (subscribeWhileConnected == Some(true))
      ensures defaultUrl == (if url.Some? && url.value != "" then url else None)
      ensures client == NoClient && routes == [] && promise == Unstarted && calls == [] && signals == []
    {
      this.componentId := componentId;
      this.subscribeWhileConnected := subscribeWhileConnected.GetOr(false);
      this.defaultUrl := if url.Some? && url.value != "" then url else None;
      this.lib := lib;
      this.build := build;
      client := NoClient;
      routes := [];
      promise := Unstarted;
      calls := [];
      signals := [];
    }

    /** `start(url)`: a new client connects and the new promise is pending. An omitted
        URL defaults to the URL option (or null); a null URL, given or defaulted,
        connects with the options alone. A client already present is replaced without
        being ended. */
    method Start(url: UrlArg)
      requires Valid()
      modifies this
      ensures Valid()
      ensures client == Connecting && promise == Pending
      ensures url.Omitted? ==> calls == old(calls) + [Connect(defaultUrl)]
      ensures url.NullUrl? ==> calls == old(calls) + [Connect(None)]
      ensures url.Url? ==> calls == old(calls) + [Connect(Some(url.url))]
      ensures routes == old(routes) && signals == old(signals)
    {
      client := Connecting;
      promise := Pending;
      var target := match url
        case Omitted => defaultUrl
        case NullUrl => None
        case Url(u) => Some(u);
      calls := calls + [Connect(target)];
    }

    /** The client's `connect` event. The first one (the once-listener of `start`)
        attaches the permanent listeners and, unless the broker kept the session,
        subscribes to every route in one call; the promise resolves at once when there
        is nothing to subscribe to. Later ones (reconnects) only set `connected`. */
    method OnConnect(sessionPresent: bool)
      requires Valid()
      modifies this
      ensures Valid()
      ensures old(client) == NoClient ==> client == NoClient && promise == old(promise) && calls == old(calls)
      ensures old(client) != NoClient ==> client == Listening(true)
      ensures old(client).Listening? ==> promise == old(promise) && calls == old(calls)
      ensures old(client) == Connecting && sessionPresent ==> promise == Resolved(true) && calls == old(calls)
      ensures old(client) == Connecting && !sessionPresent ==>
                var subs := Subscriptions(lib, routes);
                if subs == [] then promise == Resolved(false) && calls == old(calls)
                else promise == Subscribing && calls == old(calls) + [Call.Subscribe(NormalizeTopic(componentId, Keyed(subs)), 0)]
      ensures routes == old(routes) && signals == old(signals)
    {
      match client
      case NoClient =>
      case Listening(_) =>
        client := Listening(true);
      case Connecting =>
        client := Listening(true);
        if sessionPresent {
          promise := Resolved(true);
        } else {
          var subs, count := CollectSubscriptions(lib, routes);
          SubscriptionsEmpty(lib, routes);
          if count > 0 {
            calls := calls + [Call.Subscribe(NormalizeTopic(componentId, Keyed(subs)), 0)];
            promise := Subscribing;
          } else {
            promise := Resolved(false);
          }
        }
    }

    /** The broker's answer to the subscription `start` requested: the promise resolves,
        or is rejected with the error. */
    method OnStartSubscribed(error: Option<Exception>)
      requires Valid()
      modifies this
      ensures Valid()
      ensures old(promise) == Subscribing ==> promise == (if error.Some? then Rejected(error.value) else Resolved(false))
      ensures old(promise) != Subscribing ==> promise == old(promise)
      ensures client == old(client) && routes == old(routes) && calls == old(calls) && signals == old(signals)
    {
      if promise == Subscribing {
        promise := if error.Some? then Rejected(error.value) else Resolved(false);
      }
    }

    /** The client's `error` event. Before the first connect the client is dropped and
        the promise rejected; afterwards the listener rethrows the error. */
    method OnError(e: Exception) returns (thrown: Option<Exception>)
      requires Valid()
      modifies this
      ensures Valid()
      ensures old(client) == Connecting ==> client == NoClient && promise == Rejected(e) && thrown == None
      ensures old(client).Listening? ==> client == old(client) && promise == old(promise) && thrown == Some(e)
      ensures old(client) == NoClient ==> client == NoClient && promise == old(promise) && thrown == None
      ensures routes == old(routes) && calls == old(calls) && signals == old(signals)
    {
      thrown := None;
      match client
      case NoClient =>
      case Connecting =>
        client := NoClient;
        promise := Rejected(e);
      case Listening(_) =>
        thrown := Some(e);
    }

    /** The client's `offline` event: the client no longer counts as connected. */
    method OnOffline()
      requires Valid()
      modifies this
      ensures Valid()
      ensures client == (if old(client).Listening? then Listening(false) else old(client))
      ensures !Connected()
      ensures routes == old(routes) && promise == old(promise) && calls == old(calls) && signals == old(signals)
    {
      if client.Listening? {
        client := Listening(false);
      }
    }

    /** The client's `close` event, handled as `offline`. */
    method OnClose()
      requires Valid()
      modifies this
      ensures Valid()
      ensures client == (if old(client).Listening? then Listening(false) else old(client))
      ensures !Connected()
      ensures routes == old(routes) && promise == old(promise) && calls == old(calls) && signals == old(signals)
    {
      OnOffline();
    }

    /** The client's `message` event. The first route, in declaration order, whose
        pattern matches the topic gets the packet with the matched parameters attached;
        a message no route matches is emitted as `message`. Before the first connect no
        listener is attached and the message is ignored. The handler is invoked the way
        the router's call `route.execute(packet)` reaches `execute(component, packet)`:
        bound to the packet, with no packet argument. */
    method OnMessage(packet: Packet)
      requires Valid()
      modifies this
      ensures Valid()
      ensures !old(client).Listening? ==> signals == old(signals)
      ensures old(client).Listening? ==>
                match FirstMatch(lib, routes, packet.topic)
                case None => signals == old(signals) + [Message(packet)]
                case Some((i, p)) =>
                  var pk := PacketArg(packet.(params := Some(p)));
                  signals == old(signals) + [Invoked(if build == Source then Execute(routes[i], pk, UndefinedArg)
                                                     else ExecuteShipped(routes[i], pk, UndefinedArg))]
      ensures client == old(client) && routes == old(routes) && promise == old(promise) && calls == old(calls)
    {
      if client.Listening? {
        var m := FindRoute(lib, routes, packet.topic);
        match m
        case None =>
          signals := signals + [Message(packet)];
        case Some((i, p)) =>
          var pk := PacketArg(packet.(params := Some(p)));
          var inv := if build == Source then Execute(routes[i], pk, UndefinedArg) else ExecuteShipped(routes[i], pk, UndefinedArg);
          assert Declares(routes, inv.handler);
          signals := signals + [Invoked(inv)];
      }
    }

    /** `subscribe(topic, options)`: rejected while not connected; otherwise the topic is
        normalised and subscribed with QoS 0 unless the options give one. */
    method Subscribe(topic: TopicArg, qos: Option<int>) returns (rejection: Option<Exception>)
      requires Valid()
      modifies this
      ensures Valid()
      ensures !old(Connected()) ==> rejection == Some(NotConnected) && calls == old(calls)
      ensures old(Connected()) ==> rejection == None && calls == old(calls) + [Call.Subscribe(NormalizeTopic(componentId, topic), qos.GetOr(0))]
      ensures client == old(client) && routes == old(routes) && promise == old(promise) && signals == old(signals)
    {
      if !Connected() {
        return Some(NotConnected);
      }
      calls := calls + [Call.Subscribe(NormalizeTopic(componentId, topic), qos.GetOr(0))];
      rejection := None;
    }

    /** `unsubscribe(topic)`: rejected while not connected; otherwise the normalised topic
        is unsubscribed. */
    method Unsubscribe(topic: TopicArg) returns (rejection: Option<Exception>)
      requires Valid()
      modifies this
      ensures Valid()
      ensures !old(Connected()) ==> rejection == Some(NotConnected) && calls == old(calls)
      ensures old(Connected()) ==> rejection == None && calls == old(calls) + [Call.Unsubscribe(NormalizeTopic(componentId, topic))]
      ensures client == old(client) && routes == old(routes) && promise == old(promise) && signals == old(signals)
    {
      if !Connected() {
        return Some(NotConnected);
      }
      calls := calls + [Call.Unsubscribe(NormalizeTopic(componentId, topic))];
      rejection := None;
    }

    /** `publish(topic, message, options)`: rejected while not connected; otherwise the
        message goes to the normalised topic with QoS 0 and no retain flag unless the
        options say otherwise. */
    method Publish(topic: string, message: string, qos: Option<int>, retain: Option<bool>) returns (rejection: Option<Exception>)
      requires Valid()
      modifies this
      ensures Valid()
      ensures !old(Connected()) ==> rejection == Some(NotConnected) && calls == old(calls)
      ensures old(Connected()) ==>
                rejection == None && calls == old(calls) + [Call.Publish(Normalize(componentId, topic), message, qos.GetOr(0), retain.GetOr(false))]
      ensures client == old(client) && routes == old(routes) && promise == old(promise) && signals == old(signals)
    {
      if !Connected() {
        return Some(NotConnected);
      }
      calls := calls + [Call.Publish(Normalize(componentId, topic), message, qos.GetOr(0), retain.GetOr(false))];
      rejection := None;
    }

    /** `end(force)`: rejected while not connected; otherwise the client is ended
        (not forced unless asked) and dropped. */
    method End(force: Option<bool>) returns (rejection: Option<Exception>)
      requires Valid()
      modifies this
      ensures Valid()
      ensures !old(Connected()) ==> rejection == Some(NotConnected) && calls == old(calls) && client == old(client)
      ensures old(Connected()) ==> rejection == None && calls == old(calls) + [Call.End(force.GetOr(false))] && client == NoClient
      ensures routes == old(routes) && promise == old(promise) && signals == old(signals)
    {
      if !Connected() {
        return Some(NotConnected);
      }
      calls := calls + [Call.End(force.GetOr(false))];
      client := NoClient;
      rejection := None;
    }

    /** One declaration of `route`: its topic is normalised, the route constructed and
        appended, and subscribed to at once when connected with `subscribeWhileConnected`
        set; a rejected declaration throws before anything is appended. */
    method Declare(item: RouteSpec) returns (thrown: Option<Exception>)
      requires Valid()
      modifies this
      ensures Valid()
      ensures var d := DeclareAll(componentId, [item]);
              && routes == old(routes) + d.0
              && thrown == d.1
              && calls == old(calls) + (if old(Connected()) && subscribeWhileConnected then ImmediateCalls(lib, componentId, d.0) else [])
      ensures client == old(client) && promise == old(promise) && signals == old(signals)
    {
      assert [item][1..] == [];
      DeclareAllCons(componentId, [item]);
      var r := NewRoute(Some(NormalizeSpec(componentId, item)));
      if r.Err? {
        return Some(r.error);
      }
      forall h | Declares(routes, h) ensures Declares(routes + [r.value], h) {
        DeclaresGrow(routes, [r.value], h);
      }
      routes := routes + [r.value];
      if Connected() && subscribeWhileConnected {
        var subs, count := CollectSubscriptions(lib, [r.value]);
        assert [r.value][..0] == [];
        if count > 0 {
          calls := calls + [Call.Subscribe(NormalizeTopic(componentId, Keyed(subs)), 0)];
        }
      }
      thrown := None;
    }

    /** `route(...)`: each declaration, its topic normalised, becomes a route appended to
        the list, until one is rejected, whose exception `route` throws. While connected
        with `subscribeWhileConnected` set, each new subscribing route is subscribed to at
        once; while not connected the attempt is rejected and nothing reaches the client. */
    method Route(call: RouteCall) returns (thrown: Option<Exception>)
      requires Valid()
      modifies this
      ensures Valid()
      ensures Items(call).Err? ==> thrown == Some(Items(call).error) && routes == old(routes) && calls == old(calls)
      ensures Items(call).Ok? ==>
                var d := DeclareAll(componentId, Items(call).value);
                && routes == old(routes) + d.0
                && thrown == d.1
                && calls == old(calls) + (if old(Connected()) && subscribeWhileConnected then ImmediateCalls(lib, componentId, d.0) else [])
      ensures client == old(client) && promise == old(promise) && signals == old(signals)
    {
      var items := Items(call);
      if items.Err? {
        return Some(items.error);
      }
      thrown := DeclareItems(items.value);
    }

    /** The loop of `route` over its declarations. */
    method DeclareItems(items: seq<RouteSpec>) returns (thrown: Option<Exception>)
      requires Valid()
      modifies this
      ensures Valid()
      ensures var d := DeclareAll(componentId, items);
              && routes == old(routes) + d.0
              && thrown == d.1
              && calls == old(calls) + (if old(Connected()) && subscribeWhileConnected then ImmediateCalls(lib, componentId, d.0) else [])
      ensures client == old(client) && promise == old(promise) && signals == old(signals)
    {
      thrown := None;
      ghost var routes0, calls0, eager := routes, calls, Connected() && subscribeWhileConnected;
      assert items[..0] == [];
      var k := 0;
      while k < |items|
        invariant 0 <= k <= |items| && thrown == None
        invariant DeclareAll(componentId, items[..k]).1 == None
        invariant routes == routes0 + DeclareAll(componentId, items[..k]).0
        invariant calls == calls0 + (if eager then ImmediateCalls(lib, componentId, DeclareAll(componentId, items[..k]).0) else [])
        invariant client == old(client) && promise == old(promise) && signals == old(signals)
        invariant eager == (old(Connected()) && subscribeWhileConnected) == (Connected() && subscribeWhileConnected)
        invariant Valid()
      {
        thrown := DeclareNext(items, k, routes0, calls0, eager);
        if thrown.Some? {
          return;
        }
        k := k + 1;
      }
      assert items[..k] == items;
    }

    /** One iteration of `DeclareItems`: item `k` is declared after items `..k`; a
        rejection there ends the whole call. */
    method DeclareNext(items: seq<RouteSpec>, k: nat, ghost routes0: seq<Route>, ghost calls0: seq<Call>, ghost eager: bool)
      returns (thrown: Option<Exception>)
      requires Valid() && k < |items|
      requires eager == (Connected() && subscribeWhileConnected)
      requires DeclareAll(componentId, items[..k]).1 == None
      requires routes == routes0 + DeclareAll(componentId, items[..k]).0
      requires calls == calls0 + (if eager then ImmediateCalls(lib, componentId, DeclareAll(componentId, items[..k]).0) else [])
      modifies this
      ensures Valid()
      ensures var d := DeclareAll(componentId, if thrown.Some? then items else items[..k + 1]);
              && thrown == d.1
              && routes == routes0 + d.0
              && calls == calls0 + (if eager then ImmediateCalls(lib, componentId, d.0) else [])
      ensures client == old(client) && promise == old(promise) && signals == old(signals)
    {
      DeclareStep(lib, componentId, items, k, routes0, calls0);
      thrown := Declare(items[k]);
    }
  }
}
