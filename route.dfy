/** The `Route` class of the newest router (src/lib/Route.js, shipped as
    dist/lib/Route.js): a route is built once from `{topic, handler, options}` and
    only read afterwards. */
module Route {
  import opened Js

  /** The options object a caller passes with a route. An absent or undefined field
      is None, since `extend` skips undefined values; other fields are in `extra`. */
  datatype RouteOptions = RouteOptions(subscribe: Option<bool>, qos: Option<int>, extra: map<string, Value>)

  /** A route's options after the defaults `{subscribe: true, qos: 0}` were applied. */
  datatype Options = Options(subscribe: bool, qos: int, extra: map<string, Value>)

  /** The `handler` field of a route declaration: a function (named by an opaque
      id) or any other value. */
  datatype Handler = Function(id: nat) | NotAFunction(v: Value)

  /** The plain object `{topic, handler, options}` handed to the constructor;
      `options` is None when it is undefined or null. */
  datatype RouteSpec = RouteSpec(topic: string, handler: Handler, options: Option<RouteOptions>)

  /** A constructed route: the pattern it compiled with mqtt-regex, its handler
      and its options. */
  datatype Route = Route(pattern: string, handler: nat, options: Options)

  /** A message as the client delivers it, with the `params` the router attaches. */
  datatype Packet = Packet(topic: string, payload: seq<bv8>, params: Option<Params>)

  /** An argument, or the `this`, of a handler invocation. */
  datatype Arg =
    | UndefinedArg
    | PacketArg(packet: Packet)
    | ComponentArg
    | RouteObjectArg
    | OptionsArg(options: Options)
    | ValueArg(v: Value)

  /** A call of handler `handler` with `this` bound to `self` and arguments `args`. */
  datatype Invocation = Invocation(handler: nat, self: Arg, args: seq<Arg>)

  const EmptyOptions := RouteOptions(None, None, map[])

  /** `extend({subscribe: true, qos: 0}, options || {})`. */
  function Defaults(options: Option<RouteOptions>): (r: Options)
    ensures r.subscribe == (options.None? || options.value.subscribe != Some(false))
    ensures options.Some? && options.value.qos.Some? ==> r.qos == options.value.qos.value
    ensures (options.None? || options.value.qos.None?) ==> r.qos == 0
    ensures r.extra == (if options.Some? then options.value.extra else map[])
  {
    var o := options.GetOr(EmptyOptions);
    Options(o.subscribe.GetOr(true), o.qos.GetOr(0), o.extra)
  }

  /** The constructor: a null declaration and a handler that is not a function throw
      a TypeError; otherwise the topic is compiled and the options completed. */
  function NewRoute(spec: Option<RouteSpec>): (r: Result<Route, Exception>)
    ensures spec.None? ==> r == Err(TypeError("route cannot be null"))
    ensures spec.Some? && !spec.value.handler.Function? ==> r == Err(TypeError("handler must be a function"))
    ensures r.Ok? <==> spec.Some? && spec.value.handler.Function?
    ensures r.Ok? ==>
              && r.value.pattern == spec.value.topic
              && r.value.handler == spec.value.handler.id
              && r.value.options == Defaults(spec.value.options)
  {
    if spec.None? then Err(TypeError("route cannot be null"))
    else if !spec.value.handler.Function? then Err(TypeError("handler must be a function"))
    else Ok(Route(spec.value.topic, spec.value.handler.id, Defaults(spec.value.options)))
  }

  /** The `topic` getter's `.topic`: the subscription filter mqtt-regex derived. */
  function Filter(lib: TopicLib, r: Route): string {
    lib.filter(r.pattern)
  }

  /** `match(topic)`: the parameters of a matching topic, null otherwise. */
  function Match(lib: TopicLib, r: Route, topic: string): Option<Params> {
    lib.exec(r.pattern, topic)
  }

  /** `execute(component, packet)` of src/lib/Route.js: the handler bound to
      `component`, called with `packet`. */
  function Execute(r: Route, component: Arg, packet: Arg): (inv: Invocation)
    ensures inv.handler == r.handler && inv.self == component && inv.args == [packet]
  {
    Invocation(r.handler, component, [packet])
  }

  /** `execute(component, packet)` of dist/lib/Route.js: the handler bound to
      `component` with the route's options as its first argument. */
  function ExecuteShipped(r: Route, component: Arg, packet: Arg): (inv: Invocation)
    ensures inv.handler == r.handler && inv.self == component && inv.args == [OptionsArg(r.options), packet]
  {
    Invocation(r.handler, component, [OptionsArg(r.options), packet])
  }
}
