/** The `Route` class of lib/Route.js: a route wraps a topic that mqtt-regex has
    already compiled, the component it belongs to, a handler and options, all stored
    unchanged by the constructor and only read afterwards. */
module LibRoute {
  import opened Js
  import opened Route

  /** The mqtt-regex result a route is built from: its `topic` property, the `exec` of
      its `regex` (the match array, or null) and its own `exec` (the named parameters,
      or null). The package itself is not part of this model. */
  datatype Compiled = Compiled(topic: Value, regexExec: string -> Option<seq<string>>, exec: string -> Option<Params>)

  /** The stored options: the fresh `{}` of the default parameter, or the value passed. */
  datatype StoredOptions = FreshEmpty | Passed(v: Value)

  datatype LibRoute = LibRoute(component: Value, topic: Compiled, handler: nat, options: StoredOptions)

  const NullTopic := TypeError("Cannot read property 'topic' of null")
  const NotCompiled := TypeError("topic must be an mqtt-regex result")
  const NotAFunction := TypeError("handler must be a function")

  /** `topic.topic` is a non-empty string. */
  predicate IsCompiled(c: Compiled) {
    c.topic.Str? && c.topic.s != ""
  }

  /** The constructor. `topic` is None when it is undefined or null (the default
      parameter is null), which fails on reading `topic.topic`; a compiled topic must
      carry a non-empty string `topic`, and the handler must be a function. An
      undefined `options` becomes a fresh `{}`; null is kept. */
  function NewLibRoute(component: Value, topic: Option<Compiled>, handler: Handler, options: Value): (r: Result<LibRoute, Exception>)
    ensures topic.None? ==> r == Err(NullTopic)
    ensures topic.Some? && !IsCompiled(topic.value) ==> r == Err(NotCompiled)
    ensures topic.Some? && IsCompiled(topic.value) && !handler.Function? ==> r == Err(NotAFunction)
    ensures r.Ok? <==> topic.Some? && IsCompiled(topic.value) && handler.Function?
    ensures r.Ok? ==>
              && r.value.component == component
              && r.value.topic == topic.value
              && r.value.handler == handler.id
              && r.value.options == if options == Undefined then FreshEmpty else Passed(options)
  {
    if topic.None? then Err(NullTopic)
    else if !IsCompiled(topic.value) then Err(NotCompiled)
    else if !handler.Function? then Err(NotAFunction)
    else Ok(LibRoute(component, topic.value, handler.id, if options == Undefined then FreshEmpty else Passed(options)))
  }

  /** `match(topic)`: the result of the compiled regular expression, as is. */
  function MatchTopic(r: LibRoute, t: string): Option<seq<string>> {
    r.topic.regexExec(t)
  }

  /** `getParams(topic)`: the named parameters mqtt-regex extracts, as is. */
  function GetParams(r: LibRoute, t: string): Option<Params> {
    r.topic.exec(t)
  }

  /** `execute(packet)`: the handler bound to the stored component, called with the packet. */
  function ExecuteLib(r: LibRoute, packet: Packet): (inv: Invocation)
    ensures inv.handler == r.handler && inv.self == ValueArg(r.component) && inv.args == [PacketArg(packet)]
  {
    Invocation(r.handler, ValueArg(r.component), [PacketArg(packet)])
  }

  /** What a constructed route reads back is what it was given: `match` and `getParams`
      answer with the compiled topic's own functions, and `execute` calls the given
      handler on the given component. */
  lemma ConstructedRouteReadsBack(component: Value, topic: Compiled, id: nat, options: Value, t: string, packet: Packet)
    requires IsCompiled(topic)
    ensures NewLibRoute(component, Some(topic), Function(id), options).Ok?
    ensures var r := NewLibRoute(component, Some(topic), Function(id), options).value;
            && MatchTopic(r, t) == topic.regexExec(t)
            && GetParams(r, t) == topic.exec(t)
            && ExecuteLib(r, packet) == Invocation(id, ValueArg(component), [PacketArg(packet)])
  {
  }
}
