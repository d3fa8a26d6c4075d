/** The route table of the newest router (src/lib/Component.js, dist/lib/Component.js):
    declaring routes, first-match dispatch and the subscription object built by
    `_subscribeToRoutes`. */
module RouteTable {
  import opened Js
  import opened Placeholder
  import opened Route

  // ---------------------------------------------------------------------------
  // Declaring routes

  /** The arguments of `route(topic, handler, options)`, by the shape they take:
      a topic string with a function handler, a topic string without one, `null`
      (`isNull`) or nothing at all in place of the topic, one declaration object, or an
      array of declaration objects. */
  datatype RouteCall =
    | WithHandler(topic: string, handler: nat, options: RouteOptions)
    | Bare(topic: string)
    | Missing(isNull: bool)
    | Single(spec: RouteSpec)
    | List(specs: seq<RouteSpec>)

  /** The declarations `route` walks: a function handler is wrapped with its topic
      and options into one declaration, and a single declaration becomes a one-element
      list. A bare topic string is walked as a declaration whose `topic` property is
      undefined, so normalising it throws on `undefined.replace` before anything is
      pushed. A missing or `null` topic is wrapped as `[null]` or `[undefined]`, and
      reading its `topic` throws before the route constructor is reached. */
  function Items(call: RouteCall): (r: Result<seq<RouteSpec>, Exception>)
    ensures call.WithHandler? ==> r == Ok([RouteSpec(call.topic, Function(call.handler), Some(call.options))])
    ensures call.Single? ==> r == Ok([call.spec])
    ensures call.List? ==> r == Ok(call.specs)
    ensures call.Bare? ==> r == Err(TypeError("Cannot read property 'replace' of undefined"))
    ensures call.Missing? ==> r == Err(TypeError("Cannot read property 'topic' of " + if call.isNull then "null" else "undefined"))
    ensures r.Err? <==> call.Bare? || call.Missing?
  {
    match call
    case WithHandler(t, h, o) => Ok([RouteSpec(t, Function(h), Some(o))])
    case Bare(_) => Err(TypeError("Cannot read property 'replace' of undefined"))
    case Missing(isNull) => Err(TypeError("Cannot read property 'topic' of " + if isNull then "null" else "undefined"))
    case Single(spec) => Ok([spec])
    case List(specs) => Ok(specs)
  }

  /** A declaration with its topic normalised, as `route` hands it to the constructor. */
  function NormalizeSpec(componentId: string, spec: RouteSpec): RouteSpec {
    spec.(topic := Normalize(componentId, spec.topic))
  }

  /** What `route` does with one declaration: normalise its topic and construct the route. */
  function Construct(componentId: string): RouteSpec -> Result<Route, Exception> {
    spec => NewRoute(Some(NormalizeSpec(componentId, spec)))
  }

  /** The routes a loop pushes when `make` builds one route per declaration, in order,
      stopping at the first declaration `make` rejects, and the exception that stopped it. */
  function Declared(make: RouteSpec -> Result<Route, Exception>, items: seq<RouteSpec>): (seq<Route>, Option<Exception>)
    decreases |items|
  {
    if items == [] then ([], None)
    else
      match make(items[0])
      case Err(e) => ([], Some(e))
      case Ok(r) =>
        var rest := Declared(make, items[1..]);
        ([r] + rest.0, rest.1)
  }

  /** Running the loop over a longer list continues where the shorter one left off,
      unless the shorter one already stopped at an error. */
  lemma {:induction false} DeclaredAppend(make: RouteSpec -> Result<Route, Exception>, xs: seq<RouteSpec>, ys: seq<RouteSpec>)
    ensures Declared(make, xs + ys)
            == if Declared(make, xs).1.Some? then Declared(make, xs)
               else (Declared(make, xs).0 + Declared(make, ys).0, Declared(make, ys).1)
  {
    if xs == [] {
      assert xs + ys == ys;
      assert [] + Declared(make, ys).0 == Declared(make, ys).0;
    } else {
      assert (xs + ys)[0] == xs[0] && (xs + ys)[1..] == xs[1..] + ys;
      DeclaredAppend(make, xs[1..], ys);
      if make(xs[0]).Ok? {
        var head, rest := make(xs[0]).value, Declared(make, xs[1..]);
        if rest.1.None? {
          assert [head] + (rest.0 + Declared(make, ys).0) == [head] + rest.0 + Declared(make, ys).0;
        }
      }
    }
  }

  /** The routes `route` pushes for `items`, in order, stopping at the first declaration
      the constructor rejects, and the exception that stopped it. */
  function DeclareAll(componentId: string, items: seq<RouteSpec>): (seq<Route>, Option<Exception>) {
    Declared(Construct(componentId), items)
  }

  /** The first declaration is normalised and constructed; if that throws, nothing is
      pushed, otherwise its route comes first and the rest follows. */
  lemma DeclareAllCons(componentId: string, items: seq<RouteSpec>)
    requires items != []
    ensures var rest := DeclareAll(componentId, items[1..]);
            DeclareAll(componentId, items)
            == match NewRoute(Some(NormalizeSpec(componentId, items[0])))
               case Err(e) => ([], Some(e))
               case Ok(r) => ([r] + rest.0, rest.1)
  {
  }

  /** When `make` accepts the first `k` declarations and rejects the next one (if any),
      the loop pushes exactly their `k` routes, in order, and stops with that rejection. */
  lemma {:induction false} DeclaredUntil(make: RouteSpec -> Result<Route, Exception>, items: seq<RouteSpec>, k: nat)
    requires k <= |items|
    requires forall i :: 0 <= i < k ==> make(items[i]).Ok?
    requires k < |items| ==> make(items[k]).Err?
    ensures Declared(make, items).1 == if k < |items| then Some(make(items[k]).error) else None
    ensures |Declared(make, items).0| == k
    ensures forall i :: 0 <= i < k ==> Declared(make, items).0[i] == make(items[i]).value
  {
    if k > 0 {
      forall i | 0 <= i < k - 1 ensures make(items[1..][i]).Ok? {
        assert items[1..][i] == items[i + 1];
      }
      if k < |items| { assert items[1..][k - 1] == items[k]; }
      DeclaredUntil(make, items[1..], k - 1);
      forall i | 0 < i < k ensures Declared(make, items).0[i] == make(items[i]).value {
        assert items[1..][i - 1] == items[i];
      }
    }
  }

  /** When every declaration has a function handler, one route per declaration is
      appended, in input order, built from the normalised topic, the handler and the
      completed options. */
  lemma DeclareAllInOrder(componentId: string, items: seq<RouteSpec>)
    requires forall i :: 0 <= i < |items| ==> items[i].handler.Function?
    ensures DeclareAll(componentId, items).1 == None
    ensures |DeclareAll(componentId, items).0| == |items|
    ensures forall i :: 0 <= i < |items| ==>
              DeclareAll(componentId, items).0[i]
              == Route(Normalize(componentId, items[i].topic), items[i].handler.id, Defaults(items[i].options))
  {
    forall i | 0 <= i < |items|
      ensures Construct(componentId)(items[i]) == Ok(Route(Normalize(componentId, items[i].topic), items[i].handler.id, Defaults(items[i].options)))
    {
    }
    DeclaredUntil(Construct(componentId), items, |items|);
  }

  /** A declaration whose handler is not a function stops `route` with a TypeError:
      the declarations before it were added, it and the ones after it were not. */
  lemma DeclareAllStops(componentId: string, items: seq<RouteSpec>, k: nat)
    requires k < |items| && !items[k].handler.Function?
    requires forall i :: 0 <= i < k ==> items[i].handler.Function?
    ensures DeclareAll(componentId, items).1 == Some(TypeError("handler must be a function"))
    ensures |DeclareAll(componentId, items).0| == k
    ensures forall i :: 0 <= i < k ==> DeclareAll(componentId, items).0[i].pattern == Normalize(componentId, items[i].topic)
  {
    forall i | 0 <= i < k
      ensures Construct(componentId)(items[i]).Ok?
      ensures Construct(componentId)(items[i]).value.pattern == Normalize(componentId, items[i].topic)
    {
    }
    assert Construct(componentId)(items[k]) == Err(TypeError("handler must be a function"));
    DeclaredUntil(Construct(componentId), items, k);
  }

  // ---------------------------------------------------------------------------
  // Dispatch

  /** The route a message on `topic` is dispatched to: the first route, in declaration
      order, whose match is not null, with the parameters of that match. */
  function FirstMatch(lib: TopicLib, routes: seq<Route>, topic: string): (r: Option<(nat, Params)>)
    ensures r.Some? ==> r.value.0 < |routes| && Match(lib, routes[r.value.0], topic) == Some(r.value.1)
    ensures r.Some? ==> forall j :: 0 <= j < r.value.0 ==> Match(lib, routes[j], topic).None?
    ensures r.None? ==> forall j :: 0 <= j < |routes| ==> Match(lib, routes[j], topic).None?
  {
    if routes == [] then None
    else
      match Match(lib, routes[0], topic)
      case Some(p) => Some((0, p))
      case None =>
        match FirstMatch(lib, routes[1..], topic)
        case None => None
        case Some((i, p)) => Some((i + 1, p))
  }

  /** The loop of `onMessage`: scan the routes in order and stop at the first match. */
  method FindRoute(lib: TopicLib, routes: seq<Route>, topic: string) returns (r: Option<(nat, Params)>)
    ensures r.Some? ==> r.value.0 < |routes| && Match(lib, routes[r.value.0], topic) == Some(r.value.1)
    ensures r.Some? ==> forall j :: 0 <= j < r.value.0 ==> Match(lib, routes[j], topic).None?
    ensures r.None? ==> forall j :: 0 <= j < |routes| ==> Match(lib, routes[j], topic).None?
    ensures r == FirstMatch(lib, routes, topic)
  {
    var k := 0;
    while k < |routes|
      invariant 0 <= k <= |routes|
      invariant forall j :: 0 <= j < k ==> Match(lib, routes[j], topic).None?
    {
      var m := Match(lib, routes[k], topic);
      if m.Some? {
        return Some((k, m.value));
      }
      k := k + 1;
    }
    return None;
  }

  /** Declaration order decides between overlapping routes: a route that matches is
      never reached when an earlier route matches too. */
  lemma FirstMatchWins(lib: TopicLib, routes: seq<Route>, topic: string, i: nat, j: nat)
    requires i < j < |routes|
    requires Match(lib, routes[i], topic).Some?
    ensures FirstMatch(lib, routes, topic).Some?
    ensures FirstMatch(lib, routes, topic).value.0 <= i
  {
  }

  /** Adding routes never changes where a message that already matched goes. */
  lemma {:induction false} FirstMatchStable(lib: TopicLib, routes: seq<Route>, more: seq<Route>, topic: string)
    requires FirstMatch(lib, routes, topic).Some?
    ensures FirstMatch(lib, routes + more, topic) == FirstMatch(lib, routes, topic)
  {
    if Match(lib, routes[0], topic).None? {
      assert (routes + more)[1..] == routes[1..] + more;
      FirstMatchStable(lib, routes[1..], more, topic);
    }
  }

  // ---------------------------------------------------------------------------
  // Subscriptions

  /** One iteration of the `_subscribeToRoutes` loop: a route that does not subscribe
      is skipped, a filter already holding a truthy (non-zero) QoS is skipped, and
      otherwise the route's QoS is assigned to its filter. */
  function SubscriptionStep(lib: TopicLib, o: Obj<int>, r: Route): Obj<int> {
    if !r.options.subscribe then o
    else
      var q := Get(o, Filter(lib, r));
      if q.Some? && q.value != 0 then o
      else Put(o, Filter(lib, r), r.options.qos)
  }

  /** The `subscriptions` object after the loop ran over `routes`. */
  function Subscriptions(lib: TopicLib, routes: seq<Route>): Obj<int>
    decreases |routes|
  {
    if routes == [] then []
    else SubscriptionStep(lib, Subscriptions(lib, routes[..|routes| - 1]), routes[|routes| - 1])
  }

  predicate SubscribesTo(lib: TopicLib, r: Route, f: string) {
    r.options.subscribe && Filter(lib, r) == f
  }

  /** The QoS the first subscribing route on filter `f` requests with a non-zero QoS,
      or 0 when every such route requests QoS 0. */
  function FirstNonZeroQos(lib: TopicLib, routes: seq<Route>, f: string): int
    decreases |routes|
  {
    if routes == [] then 0
    else if SubscribesTo(lib, routes[0], f) && routes[0].options.qos != 0 then routes[0].options.qos
    else FirstNonZeroQos(lib, routes[1..], f)
  }

  lemma {:induction false} FirstNonZeroQosAppend(lib: TopicLib, routes: seq<Route>, r: Route, f: string)
    ensures FirstNonZeroQos(lib, routes + [r], f)
            == if FirstNonZeroQos(lib, routes, f) != 0 then FirstNonZeroQos(lib, routes, f)
               else if SubscribesTo(lib, r, f) then r.options.qos
               else 0
  {
    if routes == [] {
      assert [r][1..] == [];
    } else {
      assert (routes + [r])[1..] == routes[1..] + [r];
      FirstNonZeroQosAppend(lib, routes[1..], r, f);
    }
  }

  lemma {:induction false} FirstNonZeroQosNone(lib: TopicLib, routes: seq<Route>, f: string)
    requires forall i :: 0 <= i < |routes| ==> !SubscribesTo(lib, routes[i], f)
    ensures FirstNonZeroQos(lib, routes, f) == 0
  {
    if routes != [] {
      FirstNonZeroQosNone(lib, routes[1..], f);
    }
  }

  /** The filters of the subscribing routes. */
  function SubscribedFilters(lib: TopicLib, routes: seq<Route>): set<string> {
    set i | 0 <= i < |routes| && routes[i].options.subscribe :: Filter(lib, routes[i])
  }

  /** The subscription object has exactly one entry per filter of a subscribing route:
      routes that do not subscribe are left out, and a filter shared by several routes
      appears once. */
  lemma {:induction false} SubscriptionsKeys(lib: TopicLib, routes: seq<Route>)
    ensures KeysOf(Subscriptions(lib, routes)) == SubscribedFilters(lib, routes)
    ensures DistinctKeys(Subscriptions(lib, routes))
  {
    if routes != [] {
      var pre, last := routes[..|routes| - 1], routes[|routes| - 1];
      SubscriptionsKeys(lib, pre);
      var o := Subscriptions(lib, pre);
      var f := Filter(lib, last);
      assert SubscribedFilters(lib, routes)
             == SubscribedFilters(lib, pre) + (if last.options.subscribe then {f} else {}) by {
        forall x | x in SubscribedFilters(lib, routes)
          ensures x in SubscribedFilters(lib, pre) + (if last.options.subscribe then {f} else {})
        {
          var i :| 0 <= i < |routes| && routes[i].options.subscribe && Filter(lib, routes[i]) == x;
          if i < |pre| { assert pre[i] == routes[i]; }
        }
        forall x | x in SubscribedFilters(lib, pre) ensures x in SubscribedFilters(lib, routes) {
          var i :| 0 <= i < |pre| && pre[i].options.subscribe && Filter(lib, pre[i]) == x;
          assert routes[i] == pre[i];
        }
      }
      if last.options.subscribe {
        var q := Get(o, f);
        if q.Some? && q.value != 0 {
          GetPresent(o, f);
        } else {
          PutKeys(o, f, last.options.qos);
          PutDistinct(o, f, last.options.qos);
        }
      }
    }
  }

  /** The QoS stored for a filter is the first non-zero QoS a route on it requests,
      or 0: a later route replaces the stored QoS only while it is falsy. */
  lemma {:induction false} SubscriptionsQos(lib: TopicLib, routes: seq<Route>, f: string)
    requires f in SubscribedFilters(lib, routes)
    ensures Get(Subscriptions(lib, routes), f) == Some(FirstNonZeroQos(lib, routes, f))
  {
    var pre, last := routes[..|routes| - 1], routes[|routes| - 1];
    assert routes == pre + [last];
    FirstNonZeroQosAppend(lib, pre, last, f);
    var o := Subscriptions(lib, pre);
    SubscriptionsKeys(lib, pre);
    GetPresent(o, f);
    if f in SubscribedFilters(lib, pre) {
      SubscriptionsQos(lib, pre, f);
    } else {
      assert forall i :: 0 <= i < |pre| ==> !SubscribesTo(lib, pre[i], f);
      FirstNonZeroQosNone(lib, pre, f);
    }
    if SubscribesTo(lib, last, f) {
      var q := Get(o, f);
      if !(q.Some? && q.value != 0) {
        PutGet(o, f, last.options.qos, f);
      }
    } else if last.options.subscribe {
      var q := Get(o, Filter(lib, last));
      if !(q.Some? && q.value != 0) {
        PutGet(o, Filter(lib, last), last.options.qos, f);
      }
    } else {
      assert f in SubscribedFilters(lib, pre) by {
        var i :| 0 <= i < |routes| && routes[i].options.subscribe && Filter(lib, routes[i]) == f;
        assert i < |pre| && pre[i] == routes[i];
      }
    }
  }

  /** The subscription object is empty exactly when no route subscribes. */
  lemma SubscriptionsEmpty(lib: TopicLib, routes: seq<Route>)
    ensures Subscriptions(lib, routes) == [] <==> forall i :: 0 <= i < |routes| ==> !routes[i].options.subscribe
  {
    SubscriptionsKeys(lib, routes);
    var o := Subscriptions(lib, routes);
    if o != [] {
      assert o[0].0 in KeysOf(o);
    }
    if i :| 0 <= i < |routes| && routes[i].options.subscribe {
      assert Filter(lib, routes[i]) in KeysOf(o);
    }
  }

  /** The loop of `_subscribeToRoutes` with its counter: it builds the subscription
      object and counts the assignments, so the count is positive exactly when some
      route subscribes. */
  method CollectSubscriptions(lib: TopicLib, routes: seq<Route>) returns (subs: Obj<int>, count: nat)
    ensures subs == Subscriptions(lib, routes)
    ensures count > 0 <==> exists i :: 0 <= i < |routes| && routes[i].options.subscribe
  {
    subs, count := [], 0;
    var k := 0;
    while k < |routes|
      invariant 0 <= k <= |routes|
      invariant subs == Subscriptions(lib, routes[..k])
      invariant count > 0 <==> exists i :: 0 <= i < k && routes[i].options.subscribe
    {
      assert routes[..k + 1][..k] == routes[..k];
      var r := routes[k];
      if r.options.subscribe {
        var q := Get(subs, Filter(lib, r));
        if !(q.Some? && q.value != 0) {
          subs := Put(subs, Filter(lib, r), r.options.qos);
          count := count + 1;
        } else {
          GetPresent(subs, Filter(lib, r));
          SubscriptionsKeys(lib, routes[..k]);
          var i :| 0 <= i < k && routes[..k][i].options.subscribe && Filter(lib, routes[..k][i]) == Filter(lib, r);
          assert routes[i].options.subscribe;
        }
      }
      k := k + 1;
    }
    assert routes[..k] == routes;
  }
}
