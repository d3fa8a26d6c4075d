/** The `Component` of the earlier router (src/Component.js, shipped as
    dist/Component.js): one MQTT client, a connection flag, the list of routes, and the
    promise of `start`, which settles once. The source edition also substitutes the
    `{$componentId}` placeholder, passes the component to handlers and keeps settings
    in a store. */
module Router {
  import opened Js
  import opened Placeholder
  import opened Route
  import opened RouteList
  import opened MemoryStore

  /** src/Component.js or its build dist/Component.js. */
  datatype Edition = Source | Shipped

  /** `_mqtt` and the listeners on it: none; a client that has not connected, with the
      `error` and `close` once-listeners of `start` that have not fired yet (the `connect`
      one is there until the client connects); a client that connected, with the
      listeners of `_attachListeners`. */
  datatype Phase = Idle | Connecting(errorListener: bool, closeListener: bool) | Listening

  /** The promise of the last `start` that created a client. */
  datatype StartPromise = Unstarted | Pending | Resolved | Rejected(reason: Exception)

  /** An options object passed through to the client unchanged. */
  type RawOptions = map<string, Value>

  /** A call on the MQTT client. `Connect(None)` connects with the options object because
      it has no `url`; a route subscription passes no options at all. */
  datatype Call =
    | Connect(url: Option<string>)
    | Subscribe(topic: string, withOptions: Option<RawOptions>)
    | Publish(topic: string, payload: string, options: RawOptions)

  /** A handler invocation, or an `error` or `close` event the component emits. */
  datatype Signal = Invoked(invocation: Invocation) | ErrorEvent(error: Exception) | CloseEvent

  /** The arguments of `route(routes, handler, options)`: a pattern with a function
      handler, an array of declarations, or a value `for ... of` cannot iterate. */
  datatype RouterCall = WithHandler(route: string, handler: nat, options: RouteOptions) | Decls(decls: seq<Decl>) | NotIterable

  const NotConnected := Failure("not connected")
  const AlreadyStarted := Failure("already started")
  const ConnectionClosed := Failure("connection closed")
  const NoStore := TypeError("Cannot read property 'get' of undefined")

  /** The declarations `route` walks. */
  function DeclsOf(call: RouterCall): (r: Result<seq<Decl>, Exception>)
    ensures call.WithHandler? ==> r == Ok([Decl(call.route, Function(call.handler), Some(call.options))])
    ensures call.Decls? ==> r == Ok(call.decls)
    ensures r.Err? <==> call.NotIterable?
  {
    match call
    case WithHandler(p, h, o) => Ok([Decl(p, Function(h), Some(o))])
    case Decls(ds) => Ok(ds)
    case NotIterable => Err(TypeError("routes is not iterable"))
  }

  /** The routes `route` appends for `decls`: every declaration, in order. */
  function CompileAll(replace: bool, componentId: string, decls: seq<Decl>): (r: seq<LegacyRoute>)
    ensures |r| == |decls|
    ensures forall i :: 0 <= i < |decls| ==> r[i] == Compile(replace, componentId, decls[i])
  {
    seq(|decls|, i requires 0 <= i < |decls| => Compile(replace, componentId, decls[i]))
  }

  function SubscribeCalls(filters: seq<string>): (r: seq<Call>)
    ensures |r| == |filters|
    ensures forall i :: 0 <= i < |filters| ==> r[i] == Subscribe(filters[i], None)
  {
    seq(|filters|, i requires 0 <= i < |filters| => Subscribe(filters[i], None))
  }

  predicate Declares(routes: seq<LegacyRoute>, h: nat) {
    exists j :: 0 <= j < |routes| && routes[j].handler == Function(h)
  }

  lemma DeclaresGrow(routes: seq<LegacyRoute>, more: seq<LegacyRoute>, h: nat)
    requires Declares(routes, h)
    ensures Declares(routes + more, h)
  {
    var j :| 0 <= j < |routes| && routes[j].handler == Function(h);
    assert (routes + more)[j] == routes[j];
  }

  /** The guard of `set(key, value, override)` as written: the store is written when the
      key reads as something other than null, or when overriding. */
  predicate SetGuard(json: Json, m: Store, key: string, override: bool) {
    Lookup(json, m, key, Null) != Null || override
  }

  /** The guard `set` evidently means, the mirror image of the store's own: a key that
      reads as null, or overriding. */
  predicate IntendedGuard(json: Json, m: Store, key: string, override: bool) {
    Lookup(json, m, key, Null) == Null || override
  }

  /** As written, `set` without overriding never changes the store: the component's guard
      lets the call through only for a key that holds a truthy value, which the store's
      own guard then refuses to overwrite. */
  lemma SetAsWrittenNeverWrites(json: Json, m: Store, key: string, value: Value)
    ensures SetGuard(json, m, key, false) ==> Write(json, m, key, value, false) == m
  {
  }

  /** The input that shows it: a key not in an empty store, set without overriding. The
      intended guard lets the write through and the store takes it; the guard as written
      does not. */
  lemma SetAsWrittenDropsNewKey(json: Json, value: Value)
    ensures !SetGuard(json, map[], "a", false)
    ensures IntendedGuard(json, map[], "a", false) && Write(json, map[], "a", value, false) != map[]
  {
    assert "a" in Write(json, map[], "a", value, false);
  }

  /** With the intended guard, `set` has exactly the effect of the store's `set`. */
  lemma IntendedGuardAgrees(json: Json, m: Store, key: string, value: Value, override: bool)
    ensures (if IntendedGuard(json, m, key, override) then Write(json, m, key, value, override) else m)
            == Write(json, m, key, value, override)
  {
  }

  class Router {
    const componentId: string
    const lib: TopicLib
    const edition: Edition
    /** `this._options.url`, or None when it is falsy and the options object is used. */
    const url: Option<string>

    var connected: bool
    var phase: Phase
    var promiseDone: bool
    var promise: StartPromise
    var routes: seq<LegacyRoute>
    var store: Option<MemoryStore>
    var calls: seq<Call>
    var signals: seq<Signal>

    /** The invariant every event keeps: the flag is set exactly while the client is
        connected; `promiseDone` records a rejection; a pending promise belongs to a client
        that has not connected; every handler invoked is the handler of a route. */
    predicate Valid()
      reads this
    {
      && (connected <==> phase.Listening?)
      && (promiseDone <==> promise.Rejected?)
      && (promise.Pending? ==> phase.Connecting?)
      && (promise.Unstarted? ==> phase.Idle?)
      && forall i :: 0 <= i < |signals| && signals[i].Invoked? ==> Declares(routes, signals[i].invocation.handler)
    }

    /** `isConnected()`. */
    function IsConnected(): (r: bool)
      requires Valid()
      reads this
      ensures r <==> phase.Listening?
    {
      phase != Idle && connected
    }

    /** `new Component(componentId, options)`; the store comes from the options. */
    constructor(componentId: string, lib: TopicLib, edition: Edition, url: Option<string>, store: Option<MemoryStore>)
      requires edition == Shipped ==> store.None?
      ensures Valid()
      ensures this.componentId == componentId && this.lib == lib && this.edition == edition
      ensures this.url == (if url.Some? && url.value != "" then url else None)
      ensures this.store == store
      ensures !connected && phase == Idle && promise == Unstarted && routes == [] && calls == [] && signals == []
    {
      this.componentId := componentId;
      this.lib := lib;
      this.edition := edition;
      this.url := if url.Some? && url.value != "" then url else None;
      this.store := store;
      connected := false;
      phase := Idle;
      promiseDone := false;
      promise := Unstarted;
      routes := [];
      calls := [];
      signals := [];
    }

    /** `start()`: rejected while a client exists; otherwise a client connects and
        the new promise is pending. */
    method Start() returns (rejection: Option<Exception>)
      requires Valid()
      modifies this
      ensures Valid()
      ensures old(phase) != Idle ==> rejection == Some(AlreadyStarted) && phase == old(phase) && promise == old(promise) && calls == old(calls)
      ensures old(phase) == Idle ==>
                && rejection == None && phase == Connecting(true, true) && promise == Pending
                && calls == old(calls) + [Connect(url)]
      ensures connected == old(connected) && routes == old(routes) && signals == old(signals) && store == old(store)
    {
      if phase != Idle {
        return Some(AlreadyStarted);
      }
      promiseDone := false;
      promise := Pending;
      phase := Connecting(true, true);
      calls := calls + [Connect(url)];
      rejection := None;
    }

    /** The client's `connect` event, handled once: the listeners of `start` are removed,
        the permanent ones attached, each subscribing route subscribed to, and the promise
        resolved unless it was already rejected. */
    method OnConnect()
      requires Valid()
      modifies this
      ensures Valid()
      ensures old(phase).Connecting? ==>
                && phase == Listening && connected
                && calls == old(calls) + SubscribeCalls(RouteSubscriptions(lib, routes))
                && promise == (if old(promise) == Pending then Resolved else old(promise))
      ensures !old(phase).Connecting? ==> phase == old(phase) && connected == old(connected) && calls == old(calls) && promise == old(promise)
      ensures routes == old(routes) && signals == old(signals) && store == old(store)
    {
      if phase.Connecting? {
        connected := true;
        phase := Listening;
        var filters := SubscribeFilters(lib, routes);
        calls := calls + SubscribeCalls(filters);
        if promise == Pending {
          promise := Resolved;
        }
      }
    }

    /** The client's `error` event. Before the client connects, the first error rejects the
        promise unless it was settled, and a second one finds no listener, so the client
        throws it. Once connected, the component emits it. */
    method OnError(e: Exception) returns (thrown: Option<Exception>)
      requires Valid()
      modifies this
      ensures Valid()
      ensures old(phase).Connecting? && old(phase).errorListener ==>
                && thrown == None && phase == old(phase).(errorListener := false)
                && promise == (if old(promiseDone) then old(promise) else Rejected(e))
                && signals == old(signals)
      ensures old(phase).Connecting? && !old(phase).errorListener ==>
                thrown == Some(e) && phase == old(phase) && promise == old(promise) && signals == old(signals)
      ensures old(phase) == Listening ==> thrown == None && phase == Listening && promise == old(promise) && signals == old(signals) + [ErrorEvent(e)]
      ensures old(phase) == Idle ==> thrown == None && phase == Idle && promise == old(promise) && signals == old(signals)
      ensures connected == old(connected) && routes == old(routes) && calls == old(calls) && store == old(store)
    {
      thrown := None;
      match phase
      case Idle =>
      case Listening =>
        signals := signals + [ErrorEvent(e)];
      case Connecting(errorListener, closeListener) =>
        if !errorListener {
          thrown := Some(e);
        } else {
          if !promiseDone {
            promise := Rejected(e);
            promiseDone := true;
          }
          phase := Connecting(false, closeListener);
        }
    }

    /** The client's `close` event. Before the client connects, the first close rejects the
        promise unless it was settled. Once connected, the component emits `close` and
        drops the client, so `start` may be called again. */
    method OnClose()
      requires Valid()
      modifies this
      ensures Valid()
      ensures old(phase).Connecting? && old(phase).closeListener ==>
                && phase == old(phase).(closeListener := false) && !connected
                && promise == (if old(promiseDone) then old(promise) else Rejected(ConnectionClosed))
                && signals == old(signals)
      ensures old(phase).Connecting? && !old(phase).closeListener ==> phase == old(phase) && promise == old(promise) && signals == old(signals)
      ensures old(phase) == Listening ==> phase == Idle && !connected && promise == old(promise) && signals == old(signals) + [CloseEvent]
      ensures old(phase) == Idle ==> phase == Idle && promise == old(promise) && signals == old(signals)
      ensures routes == old(routes) && calls == old(calls) && store == old(store)
    {
      match phase
      case Idle =>
      case Listening =>
        signals := signals + [CloseEvent];
        connected := false;
        phase := Idle;
      case Connecting(errorListener, closeListener) =>
        if closeListener {
          connected := false;
          if !promiseDone {
            promise := Rejected(ConnectionClosed);
            promiseDone := true;
          }
          phase := Connecting(errorListener, false);
        }
    }

    /** The client's `message` event once connected: the first matching route's handler is
        called as a method of the route, with the packet (its `params` set by matching
        again) and, in the source edition, the component; a message no route matches is
        dropped. A handler that is not a function throws. */
    method OnMessage(packet: Packet) returns (thrown: Option<Exception>)
      requires Valid()
      modifies this
      ensures Valid()
      ensures old(phase) != Listening ==> thrown == None && signals == old(signals)
      ensures old(phase) == Listening ==>
                match FirstRoute(lib, routes, packet.topic)
                case None => thrown == None && signals == old(signals)
                case Some(i) =>
                  var pk := PacketArg(packet.(params := lib.exec(routes[i].pattern, packet.topic)));
                  match routes[i].handler
                  case NotAFunction(_) => thrown == Some(TypeError("route.handler is not a function")) && signals == old(signals)
                  case Function(h) =>
                    && thrown == None
                    && signals == old(signals) + [Invoked(Invocation(h, RouteObjectArg, if edition == Source then [pk, ComponentArg] else [pk]))]
      ensures connected == old(connected) && phase == old(phase) && promise == old(promise)
      ensures routes == old(routes) && calls == old(calls) && store == old(store)
    {
      thrown := None;
      if phase == Listening {
        var m := MatchTopicToRoute(lib, routes, packet.topic);
        if m.Some? {
          var route := routes[m.value];
          var pk := PacketArg(packet.(params := lib.exec(route.pattern, packet.topic)));
          match route.handler
          case NotAFunction(_) =>
            thrown := Some(TypeError("route.handler is not a function"));
          case Function(h) =>
            assert Declares(routes, h);
            signals := signals + [Invoked(Invocation(h, RouteObjectArg, if edition == Source then [pk, ComponentArg] else [pk]))];
        }
      }
    }

    /** `route(routes, handler, options)`: every declaration is completed and appended,
        in order; nothing is validated. */
    method Route(call: RouterCall) returns (thrown: Option<Exception>)
      requires Valid()
      modifies this
      ensures Valid()
      ensures call.NotIterable? ==> thrown == Some(TypeError("routes is not iterable")) && routes == old(routes)
      ensures DeclsOf(call).Ok? ==> thrown == None && routes == old(routes) + CompileAll(edition == Source, componentId, DeclsOf(call).value)
      ensures connected == old(connected) && phase == old(phase) && promise == old(promise)
      ensures calls == old(calls) && signals == old(signals) && store == old(store)
    {
      if call.NotIterable? {
        return Some(TypeError("routes is not iterable"));
      }
      var decls := DeclsOf(call).value;
      ghost var routes0 := routes;
      for k := 0 to |decls|
        invariant routes == routes0 + CompileAll(edition == Source, componentId, decls[..k])
        invariant Valid()
        invariant connected == old(connected) && phase == old(phase) && promise == old(promise)
        invariant calls == old(calls) && signals == old(signals) && store == old(store)
      {
        var r := Compile(edition == Source, componentId, decls[k]);
        forall h | Declares(routes, h) ensures Declares(routes + [r], h) {
          DeclaresGrow(routes, [r], h);
        }
        assert CompileAll(edition == Source, componentId, decls[..k + 1])
               == CompileAll(edition == Source, componentId, decls[..k]) + [r];
        routes := routes + [r];
      }
      assert decls[..|decls|] == decls;
      thrown := None;
    }

    /** `publish(topic, message, options)`: rejected while not connected; otherwise the
        message goes out with the options as given (the source edition substitutes the
        placeholder in the topic). */
    method Publish(topic: string, message: string, options: Option<RawOptions>) returns (rejection: Option<Exception>)
      requires Valid()
      modifies this
      ensures Valid()
      ensures !old(IsConnected()) ==> rejection == Some(NotConnected) && calls == old(calls)
      ensures old(IsConnected()) ==>
                && rejection == None
                && calls == old(calls) + [Call.Publish(if edition == Source then Normalize(componentId, topic) else topic, message, options.GetOr(map[]))]
      ensures connected == old(connected) && phase == old(phase) && promise == old(promise)
      ensures routes == old(routes) && signals == old(signals) && store == old(store)
    {
      if !IsConnected() {
        return Some(NotConnected);
      }
      calls := calls + [Call.Publish(if edition == Source then Normalize(componentId, topic) else topic, message, options.GetOr(map[]))];
      rejection := None;
    }

    /** `subscribe(topic, options)`: rejected while not connected; otherwise the topic is
        subscribed to with the options as given. */
    method Subscribe(topic: string, options: Option<RawOptions>) returns (rejection: Option<Exception>)
      requires Valid()
      modifies this
      ensures Valid()
      ensures !old(IsConnected()) ==> rejection == Some(NotConnected) && calls == old(calls)
      ensures old(IsConnected()) ==>
                && rejection == None
                && calls == old(calls) + [Call.Subscribe(if edition == Source then Normalize(componentId, topic) else topic, Some(options.GetOr(map[])))]
      ensures connected == old(connected) && phase == old(phase) && promise == old(promise)
      ensures routes == old(routes) && signals == old(signals) && store == old(store)
    {
      if !IsConnected() {
        return Some(NotConnected);
      }
      calls := calls + [Call.Subscribe(if edition == Source then Normalize(componentId, topic) else topic, Some(options.GetOr(map[])))];
      rejection := None;
    }

    /** `setStore(store)` (source edition). */
    method SetStore(s: MemoryStore)
      requires Valid() && edition == Source
      modifies this
      ensures Valid()
      ensures store == Some(s)
      ensures connected == old(connected) && phase == old(phase) && promise == old(promise)
      ensures routes == old(routes) && calls == old(calls) && signals == old(signals)
    {
      store := Some(s);
    }

    /** `set(key, value, override)` as written (source edition): without a store it throws;
        with one, writing with `override` (the default) behaves like the store's `set`,
        and writing without it never changes anything. */
    method Set(key: string, value: Value, override: Option<bool>) returns (thrown: Option<Exception>)
      requires Valid() && edition == Source
      modifies if store.Some? then {store.value} else {}
      ensures store.None? ==> thrown == Some(NoStore)
      ensures store.Some? ==> thrown == None
      ensures store.Some? && override.GetOr(true) ==>
                store.value.store == Write(store.value.json, old(store.value.store), key, value, true)
      ensures store.Some? && !override.GetOr(true) ==> store.value.store == old(store.value.store)
    {
      if store.None? {
        return Some(NoStore);
      }
      var s := store.value;
      var ovr := override.GetOr(true);
      if s.Get(key, None) != Null || ovr {
        s.Set(key, value, Some(ovr));
        SetAsWrittenNeverWrites(s.json, old(s.store), key, value);
      }
      thrown := None;
    }

    /** `set` with the guard it evidently means: the store's own guard then decides, so a
        new key is written with or without `override`. */
    method SetIntended(key: string, value: Value, override: Option<bool>) returns (thrown: Option<Exception>)
      requires Valid() && edition == Source
      modifies if store.Some? then {store.value} else {}
      ensures store.None? ==> thrown == Some(NoStore)
      ensures store.Some? ==>
                && thrown == None
                && store.value.store == Write(store.value.json, old(store.value.store), key, value, override.GetOr(true))
    {
      if store.None? {
        return Some(NoStore);
      }
      var s := store.value;
      var ovr := override.GetOr(true);
      IntendedGuardAgrees(s.json, s.store, key, value, ovr);
      if s.Get(key, None) == Null || ovr {
        s.Set(key, value, Some(ovr));
      }
      thrown := None;
    }

    /** `get(key, def)` (source edition): throws without a store, else the store's value
        for the key, the default (null unless given) when it has none. */
    method Get(key: string, def: Option<Value>) returns (r: Result<Value, Exception>)
      requires Valid() && edition == Source
      ensures store.None? ==> r == Err(NoStore)
      ensures store.Some? ==> r == Ok(Lookup(store.value.json, store.value.store, key, def.GetOr(Null)))
    {
      if store.None? {
        return Err(NoStore);
      }
      r := Ok(store.value.Get(key, Some(def.GetOr(Null))));
    }
  }
}
