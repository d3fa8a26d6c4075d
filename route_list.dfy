/** The route list of the earlier router (src/Component.js, shipped as dist/Component.js):
    declarations are completed in place and pushed without validation, a message goes to
    the first route whose pattern matches, and on connect every subscribing route is
    subscribed to with its own call. */
module RouteList {
  import opened Js
  import opened Placeholder
  import opened Route

  /** A route declaration `{route, handler, options}`; `options` is None when falsy. */
  datatype Decl = Decl(route: string, handler: Handler, options: Option<RouteOptions>)

  /** A declaration after `route` completed it: the (placeholder-substituted) pattern, the
      handler as given, and the `subscribe` option, which defaults to true. */
  datatype LegacyRoute = LegacyRoute(pattern: string, handler: Handler, subscribe: bool)

  /** One iteration of `route`: with `replace` (src/Component.js only) the pattern has its
      placeholder substituted; `extend(true, {}, {subscribe: true}, options || {})`. */
  function Compile(replace: bool, componentId: string, d: Decl): (r: LegacyRoute)
    ensures r.handler == d.handler
    ensures r.pattern == if replace then Normalize(componentId, d.route) else d.route
    ensures r.subscribe <==> d.options.None? || d.options.value.subscribe != Some(false)
  {
    LegacyRoute(if replace then Normalize(componentId, d.route) else d.route,
                d.handler,
                d.options.None? || d.options.value.subscribe.GetOr(true))
  }

  /** `route.topic`: the subscription filter mqtt-regex derived from the pattern. */
  function Topic(lib: TopicLib, r: LegacyRoute): string {
    lib.filter(r.pattern)
  }

  predicate Matches(lib: TopicLib, r: LegacyRoute, topic: string) {
    lib.exec(r.pattern, topic).Some?
  }

  /** `_matchTopicToRoute(topic)`: the first route, in declaration order, that matches. */
  function FirstRoute(lib: TopicLib, routes: seq<LegacyRoute>, topic: string): (r: Option<nat>)
    ensures r.Some? ==> r.value < |routes| && Matches(lib, routes[r.value], topic)
    ensures r.Some? ==> forall j :: 0 <= j < r.value ==> !Matches(lib, routes[j], topic)
    ensures r.None? ==> forall j :: 0 <= j < |routes| ==> !Matches(lib, routes[j], topic)
  {
    if routes == [] then None
    else if Matches(lib, routes[0], topic) then Some(0)
    else
      match FirstRoute(lib, routes[1..], topic)
      case None => None
      case Some(i) => Some(i + 1)
  }

  /** The loop of `_matchTopicToRoute`. */
  method MatchTopicToRoute(lib: TopicLib, routes: seq<LegacyRoute>, topic: string) returns (r: Option<nat>)
    ensures r.Some? ==> r.value < |routes| && Matches(lib, routes[r.value], topic)
    ensures r.Some? ==> forall j :: 0 <= j < r.value ==> !Matches(lib, routes[j], topic)
    ensures r.None? ==> forall j :: 0 <= j < |routes| ==> !Matches(lib, routes[j], topic)
    ensures r == FirstRoute(lib, routes, topic)
  {
    for k := 0 to |routes|
      invariant forall j :: 0 <= j < k ==> !Matches(lib, routes[j], topic)
    {
      if Matches(lib, routes[k], topic) {
        return Some(k);
      }
    }
    return None;
  }

  /** The filters `_subscribeToRoutes` subscribes to, one call per subscribing route, in
      declaration order. */
  function RouteSubscriptions(lib: TopicLib, routes: seq<LegacyRoute>): seq<string>
    decreases |routes|
  {
    if routes == [] then []
    else
      var last := routes[|routes| - 1];
      RouteSubscriptions(lib, routes[..|routes| - 1]) + (if last.subscribe then [Topic(lib, last)] else [])
  }

  /** The loop of `_subscribeToRoutes`, collecting the filters it subscribes to. */
  method SubscribeFilters(lib: TopicLib, routes: seq<LegacyRoute>) returns (filters: seq<string>)
    ensures filters == RouteSubscriptions(lib, routes)
    ensures |filters| <= |routes|
  {
    filters := [];
    for k := 0 to |routes|
      invariant filters == RouteSubscriptions(lib, routes[..k])
      invariant |filters| <= k
    {
      assert routes[..k + 1][..k] == routes[..k];
      if routes[k].subscribe {
        filters := filters + [Topic(lib, routes[k])];
      }
    }
    assert routes[..|routes|] == routes;
  }

  /** How many routes subscribe with filter `f`. */
  function CountSubscribing(lib: TopicLib, routes: seq<LegacyRoute>, f: string): nat
    decreases |routes|
  {
    if routes == [] then 0
    else
      var last := routes[|routes| - 1];
      CountSubscribing(lib, routes[..|routes| - 1], f) + (if last.subscribe && Topic(lib, last) == f then 1 else 0)
  }

  /** Each filter is subscribed to once per route that subscribes with it: unlike the
      newest router, the earlier one does not merge routes that share a filter. */
  lemma {:induction false} RouteSubscriptionsCount(lib: TopicLib, routes: seq<LegacyRoute>, f: string)
    ensures multiset(RouteSubscriptions(lib, routes))[f] == CountSubscribing(lib, routes, f)
  {
    if routes != [] {
      RouteSubscriptionsCount(lib, routes[..|routes| - 1], f);
    }
  }

  lemma {:induction false} CountSubscribingAppend(lib: TopicLib, xs: seq<LegacyRoute>, ys: seq<LegacyRoute>, f: string)
    ensures CountSubscribing(lib, xs + ys, f) == CountSubscribing(lib, xs, f) + CountSubscribing(lib, ys, f)
    decreases |ys|
  {
    if ys == [] {
      assert xs + ys == xs;
    } else {
      assert (xs + ys)[..|xs + ys| - 1] == xs + ys[..|ys| - 1];
      CountSubscribingAppend(lib, xs, ys[..|ys| - 1], f);
    }
  }

  /** A route that subscribes with filter `f` is counted. */
  lemma CountSubscribingAt(lib: TopicLib, routes: seq<LegacyRoute>, i: nat, f: string)
    requires i < |routes| && routes[i].subscribe && Topic(lib, routes[i]) == f
    ensures CountSubscribing(lib, routes, f) >= 1
  {
    assert routes == routes[..i + 1] + routes[i + 1..];
    CountSubscribingAppend(lib, routes[..i + 1], routes[i + 1..], f);
    assert routes[..i + 1][..i] == routes[..i];
  }

  /** Two subscribing routes on the same filter give two subscriptions to it. */
  lemma DuplicateSubscriptions(lib: TopicLib, routes: seq<LegacyRoute>, i: nat, j: nat)
    requires i < j < |routes|
    requires routes[i].subscribe && routes[j].subscribe && Topic(lib, routes[i]) == Topic(lib, routes[j])
    ensures multiset(RouteSubscriptions(lib, routes))[Topic(lib, routes[i])] >= 2
  {
    var f := Topic(lib, routes[i]);
    assert routes == routes[..j] + routes[j..];
    CountSubscribingAppend(lib, routes[..j], routes[j..], f);
    CountSubscribingAt(lib, routes[..j], i, f);
    CountSubscribingAt(lib, routes[j..], 0, f);
    RouteSubscriptionsCount(lib, routes, f);
  }
}
