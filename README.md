# novus-component in Dafny

novus-component is a small framework for MQTT "components". A component owns one
connection to an MQTT broker. It routes incoming messages to handlers by topic pattern,
and it can fetch its settings from the broker before it declares itself ready. The
repository keeps several historical revisions of this component side by side. This
project models each revision separately:

- **The newest router**: `src/lib/Component.js` and `src/lib/Route.js`, with their
  builds `dist/lib/*`. It keeps an ordered route table and replaces the first
  `{$componentId}` placeholder in topics. Dispatch goes to the first matching route.
  On the first connect after `start` it subscribes to all routes with one deduplicated
  subscription object, unless the broker kept the session (the `sessionPresent` flag of
  the CONNACK packet, section 3.2.2.2 of MQTT 3.1.1). A `connected` flag guards every client operation.
  The two builds differ only in how a route calls its handler.
  Modules: `Js`, `Placeholder`, `Route`, `RouteTable`, `Component`.
- **The earlier router**: `src/Component.js` and its older build `dist/Component.js`.
  Its `start()` state machine rejects "already started" and settles its promise once.
  It finds routes first-match through `_matchTopicToRoute` and subscribes once per
  route, with no deduplication. The source edition adds placeholder substitution and
  a store-backed `set`/`get`.
  Modules: `RouteList`, `Router`.
- **The key/value store**: `dist/MemoryStore.js` and `src/MemoryStore.js`. It keeps
  JSON-encoded values, with an override guard on `set` and a default on `get`.
  Modules: `MemoryStore`, `SrcMemoryStore`.
- **The readiness component**: `lib/Component.js` and its first revision
  `Component.js`. On every connect it subscribes to `sys/<id>/<setting>` for each
  declared setting and arms a timeout. It becomes ready once it holds as many settings
  as it declared.
  Modules: `Settings`, `Readiness`.
- **The newest stand-alone `Route`**: `lib/Route.js`. Module: `LibRoute`.

Objects whose fields the source updates are classes:

- the two routers, the readiness component and the two stores;
- their events (connect, message, offline, close, error, timer expiry) are methods;
- each class except the working store keeps an invariant `Valid()` that every method
  preserves;
- calls the component makes on the MQTT client are logged in `calls`;
- the events it emits and the handler calls it makes are logged in `signals`.

Loops in the source are loops here (`FindRoute`, `CollectSubscriptions`,
`MatchTopicToRoute`, `SubscribeFilters`, the `route` loops, the subscription loop of
the readiness connect handler). Each is proved equal to a recursive function that
defines its result. Lemmas about those functions state what the source promises.

Some collaborators are parameters rather than code:

- the `mqtt-regex` package: `Js.TopicLib` (filter and exec), `LibRoute.Compiled`;
- `JSON.parse` / `JSON.stringify`: `MemoryStore.Json`, where None means the call throws;
- `message.toString()`: `Readiness.Readiness.decode`.

JavaScript objects with string keys keep their insertion order. They are sequences of
pairs (`Js.Obj`).

Some behaviours of the code worth knowing, each stated by the model:

- A setting that arrives after the readiness timeout still makes the component ready
  (`Readiness.TimeoutThenReady`).
- `set(property, value, true)` of `lib/Component.js` publishes whether or not the
  client is connected (`Readiness.Readiness.Set`).
- No revision rejects duplicate routes or malformed patterns (`RouteTable.DeclareAll`,
  `Router.Router.Route`).
- Settings payloads are stored as `message.toString()` in `lib/Component.js` and as the
  raw buffer in `Component.js`; neither is JSON-decoded (`Readiness.Readiness.OnMessage`).
- Every connect, reconnects included, subscribes to the settings again and arms a new
  timer, even after readiness. A timer that fires after readiness emits nothing
  (`Readiness.Readiness.OnConnect`, `Readiness.Readiness.OnTimeout`).
- `lib/Component.js` without a broker URL throws out of its constructor: the `error`
  event it emits there cannot have a listener yet (`Readiness.Readiness.Create`).

## Model

| member | source | states |
|---|---|---|
| Route.Defaults | src/lib/Route.js:33-36 | `subscribe` is true unless the options give false; `qos` is 0 unless given; every other option field is kept |
| Route.NewRoute | src/lib/Route.js:22-37 | a null declaration fails with "route cannot be null"; a handler that is not a function fails with "handler must be a function"; it succeeds exactly otherwise, keeping pattern and handler and completing the options |
| Route.Execute | src/lib/Route.js:71-74 | `execute(component, packet)` calls the route's handler with `this` bound to `component` and `packet` as its only argument |
| Route.ExecuteShipped | dist/lib/Route.js:84-87 | the shipped `execute` passes the route's completed options first and the packet second |
| Placeholder.IndexFromSpec | src/lib/Component.js:279 | `indexOf`: the result is an occurrence at or after `from`, no earlier occurrence exists, and None means none at all |
| Placeholder.ExpandLiteral | src/lib/Component.js:279 | a replacement string without `$` is inserted literally by `String.prototype.replace` |
| Placeholder.NormalizeWithoutToken | src/lib/Component.js:278-281 | a topic without `{$componentId}` is unchanged |
| Placeholder.NormalizeFirstOnly | src/lib/Component.js:278-281 | only the first placeholder is replaced, by the id as `replace` expands its `$` patterns (literally for an id without `$`); the text before it and everything after it, later placeholders included, stay as they are |
| Placeholder.NormalizeStatusExample | src/Component.js:222-225 | `{$componentId}/status` of component `comp1` becomes `comp1/status` |
| Placeholder.NormalizeTopic | src/lib/Component.js:276-299 | a string is normalised; an array is normalised element by element with its length kept; an object stays an object |
| Placeholder.RenameKeysKeys | src/lib/Component.js:289-294 | the keys of the normalised object are exactly the normalised keys |
| Placeholder.RenameKeysValues | src/lib/Component.js:289-294 | when no two keys are equal or normalise to the same key, every value is kept under its normalised key |
| Placeholder.RenameKeysIdentity | src/lib/Component.js:289-294 | an object whose keys have no placeholder comes back unchanged, values and key order included |
| RouteTable.Items | src/lib/Component.js:191-202 | a function handler is wrapped with its topic and options into one declaration; one declaration becomes a one-element list; a list is kept; a bare topic string is walked as a declaration without a topic and fails with "Cannot read property 'replace' of undefined"; a `null` or missing topic fails with "Cannot read property 'topic' of null" (or `undefined`) |
| RouteTable.DeclareAllInOrder | src/lib/Component.js:204-206 | with function handlers, one route per declaration is appended, in input order, from the normalised topic, the handler and the completed options |
| RouteTable.DeclareAllStops | src/lib/Component.js:204-206 | a declaration whose handler is not a function stops `route` with its TypeError; exactly the declarations before it were added |
| RouteTable.FirstMatch | src/lib/Component.js:236-245 | the chosen route matches with the returned parameters and no earlier route matches; None means no route matches |
| RouteTable.FindRoute | src/lib/Component.js:237-243 | the dispatch loop returns exactly `FirstMatch` |
| RouteTable.FirstMatchWins | src/lib/Component.js:237-243 | when two routes both match, the later one is never chosen |
| RouteTable.FirstMatchStable | src/lib/Component.js:204-206 | appending routes never changes where an already-matched topic is dispatched |
| RouteTable.SubscriptionsKeys | src/lib/Component.js:261-269 | the subscription object has one key per filter of a subscribing route and no key twice; routes with `subscribe` false are left out |
| RouteTable.SubscriptionsQos | src/lib/Component.js:266-267 | the QoS stored for a filter is the first non-zero QoS requested for it, else 0, because a later route replaces only a falsy stored QoS |
| RouteTable.SubscriptionsEmpty | src/lib/Component.js:264-270 | the subscription object is empty exactly when no route subscribes |
| RouteTable.CollectSubscriptions | src/lib/Component.js:261-270 | the loop builds exactly `Subscriptions`; its counter is positive exactly when some route subscribes |
| Component.SubscribingRoutes | src/lib/Component.js:263-264 | the routes whose `subscribe` option is set: each as often as it occurs, and no other |
| Component.ImmediateCallsPerRoute | src/lib/Component.js:207-209 | `route` sends exactly one subscription per new subscribing route, in order: that route's own subscription object, normalised, with QoS 0 |
| Component.Component.Connected | src/lib/Component.js:56-58 | connected exactly when a client exists and its `connected` flag is set |
| Component.Component.constructor | src/lib/Component.js:14-37 | `subscribeWhileConnected` defaults to false; there is no client and no route |
| Component.Component.Start | src/lib/Component.js:70-97 | an omitted URL defaults to the URL option; a null URL, given or defaulted, connects with the options alone; a given URL is used as is; the promise is pending |
| Component.Component.OnConnect | src/lib/Component.js:73-87 | the first connect sets the flag. With `sessionPresent` it resolves without subscribing. Otherwise it sends one subscription of the normalised `Subscriptions` object and waits for its answer, or resolves at once when that object is empty. A reconnect only sets the flag |
| Component.Component.OnStartSubscribed | src/lib/Component.js:79-86 | the answer to that subscription resolves the promise or rejects it with the error |
| Component.Component.OnError | src/lib/Component.js:89-93 | before the first connect the client is dropped and the promise rejected; afterwards the listener rethrows the error |
| Component.Component.OnOffline | src/lib/Component.js:223-225 | the client's flag is cleared, so the component is not connected |
| Component.Component.OnClose | src/lib/Component.js:227-229 | handled as `offline` |
| Component.Component.OnMessage | src/lib/Component.js:236-245 | the first matching route alone is invoked, with the match attached to the packet, in the way `route.execute(packet)` reaches `execute(component, packet)`; with no match a `message` event is emitted; never both |
| Component.Component.Subscribe | src/lib/Component.js:105-121 | rejected with "not connected to broker" and no client call when not connected; otherwise the normalised topic with QoS 0 unless given |
| Component.Component.Unsubscribe | src/lib/Component.js:126-137 | the same guard; otherwise the normalised topic is unsubscribed |
| Component.Component.Publish | src/lib/Component.js:142-167 | the same guard; otherwise publishes to the normalised topic with QoS 0 and no retain flag unless given |
| Component.Component.End | src/lib/Component.js:172-184 | the same guard; otherwise ends the client (not forced unless asked) and drops it |
| Component.Component.Declare | src/lib/Component.js:204-210 | one iteration of `route`: the new route is appended and, while connected with `subscribeWhileConnected`, subscribed to at once |
| Component.Component.Route | src/lib/Component.js:191-211 | the routes and immediate subscriptions of `DeclareAll` over `Items`, stopping at the first rejected declaration, whose error is thrown; when `Items` fails, its error is thrown and nothing changes |
| Component.Component.DeclareItems | src/lib/Component.js:204-210 | the `forEach` loop of `route` has exactly the effect of `DeclareAll` |
| Component.Component.DeclareNext | src/lib/Component.js:204-210 | one pass of that loop keeps its invariant, or finishes the call at the first rejection |
| RouteList.Compile | src/Component.js:84-88 | the earlier `route` keeps the handler, substitutes the placeholder in the source edition only, and defaults `subscribe` to true |
| RouteList.FirstRoute | src/Component.js:210-217 | the chosen route matches and no earlier one does; None means none matches |
| RouteList.MatchTopicToRoute | dist/Component.js:291-320 | the lookup loop returns exactly `FirstRoute` |
| RouteList.SubscribeFilters | src/Component.js:199-205 | the subscription loop subscribes to exactly `RouteSubscriptions`, at most one call per route |
| RouteList.RouteSubscriptionsCount | dist/Component.js:262-267 | each filter is subscribed to once per subscribing route that has it |
| RouteList.DuplicateSubscriptions | src/Component.js:200-204 | two subscribing routes on one filter give two subscriptions to it: nothing is deduplicated |
| Router.DeclsOf | src/Component.js:73-83 | a function handler becomes a one-declaration list; an array is walked as given; anything else is not iterable |
| Router.CompileAll | src/Component.js:83-90 | one completed route per declaration, in order |
| Router.SetAsWrittenNeverWrites | src/Component.js:50-54 | as written, `set` without override never changes the store |
| Router.SetAsWrittenDropsNewKey | src/Component.js:51 | as written, a new key set without override is dropped, though the store itself would take it |
| Router.IntendedGuardAgrees | src/Component.js:51 | with the intended guard, `set` has exactly the effect of the store's `set` |
| Router.Router.IsConnected | dist/Component.js:75-78 | connected exactly when a client exists that has connected |
| Router.Router.constructor | src/Component.js:26-38 | no client, no route, an unsettled promise, and the store given |
| Router.Router.Start | src/Component.js:128-165 | rejected with "already started" while a client exists; otherwise a client connects to the URL, or with the options when there is none, and the promise is pending |
| Router.Router.OnConnect | src/Component.js:150-158 | sets the flag, subscribes every subscribing route, and resolves the promise unless an error or close already rejected it |
| Router.Router.OnError | src/Component.js:135-140 | before connecting, the first error rejects the promise unless it is settled; a second one finds no listener and is thrown; once connected the error is emitted |
| Router.Router.OnClose | src/Component.js:142-148 | before connecting, a close clears the flag and rejects the promise with "connection closed" unless it is settled; once connected it emits `close` and drops the client so `start` may run again |
| Router.Router.OnMessage | src/Component.js:172-178 | only the first matching route's handler runs, as a method of the route, with the packet (and the component in the source edition); an unmatched message is dropped |
| Router.Router.Route | dist/Component.js:86-125 | every declaration is completed and appended, in order, with no validation |
| Router.Router.Publish | src/Component.js:96-107 | rejected with "not connected" and no client call when not connected; otherwise the placeholder-substituted topic is published |
| Router.Router.Subscribe | src/Component.js:112-123 | the same guard; otherwise the placeholder-substituted topic is subscribed to |
| Router.Router.SetStore | src/Component.js:43-45 | the store is replaced |
| Router.Router.Set | src/Component.js:50-54 | as written: it throws without a store; with `override` it acts as the store's `set`; without it the store never changes |
| Router.Router.SetIntended | src/Component.js:50-54 | corrected: the store's own guard decides, so a new key is written with or without `override` |
| Router.Router.Get | src/Component.js:59-61 | the store's value for the key, or the default (null unless given); it throws without a store |
| MemoryStore.WriteLookup | dist/MemoryStore.js:54-76 | for every value, a write the guard admits reads back as the decoded encoding when the encoding is truthy, and as the default otherwise |
| MemoryStore.WriteThenLookup | dist/MemoryStore.js:54-76 | in particular, a value that survives a JSON round trip reads back as written, whatever the default |
| MemoryStore.WriteOtherKeys | dist/MemoryStore.js:59 | a write to one key leaves every other key reading as before |
| MemoryStore.WriteKeepsPresent | dist/MemoryStore.js:58 | without override, a key holding a truthy value keeps it |
| MemoryStore.LookupMissing | dist/MemoryStore.js:68-76 | an absent or falsy key reads as the default |
| MemoryStore.MemoryStore.constructor | dist/MemoryStore.js:16-20 | a new store is empty |
| MemoryStore.MemoryStore.Set | dist/MemoryStore.js:54-61 | the store becomes `Write`: the encoded value under the key when the guard (absent or falsy key, or override, which defaults to true) admits it; other keys are untouched |
| SrcMemoryStore.SrcMemoryStore.constructor | src/MemoryStore.js:8-10 | a new store is empty |
| SrcMemoryStore.SrcMemoryStore.Set | src/MemoryStore.js:37-41 | as written: whenever the guard admits the write, the call of the missing `__tryStringifyJSON` throws and nothing is stored |
| SrcMemoryStore.SrcMemoryStore.Get | src/MemoryStore.js:46-51 | since nothing is ever stored, every read gives the default |
| SrcMemoryStore.SetThenGet | src/MemoryStore.js:39 | writing 1 and reading it back: as written the write throws and the read gives null; the corrected store gives 1 |
| Settings.Split | lib/Component.js:62 | `split('/')` gives one more part than there are separators, and no part contains one |
| Settings.SplitConcat | lib/Component.js:62 | splitting `a/b` with no `/` in `a` gives `a` followed by the parts of `b` |
| Settings.SettingsTopicKey | lib/Component.js:39 | the topic of a setting counts as a settings message and is stored under the setting's name, when neither the id nor the name contains `/` |
| Settings.SettingsKeyWithSlashInId | Component.js:48 | a component id containing `/` moves the key: settings of component `a/b` are all stored under `b` |
| Settings.NestedSysIsSettings | lib/Component.js:73 | a topic is a settings message exactly when `sys/` occurs anywhere in it, not only at the start |
| Settings.NestedSysExample | lib/Component.js:73 | `home/sys/x` is a settings message |
| Readiness.Delay | lib/Component.js:49 | the timeout option, or 10000 when it is 0: never 0, and a non-zero timeout is kept |
| Readiness.SettingsSubscriptions | lib/Component.js:38-45 | one subscription to `sys/<id>/<setting>` per declared setting, in order |
| Readiness.ClearTimer | lib/Component.js:68 | only the latest timer is cleared, and only if it is still armed |
| Readiness.Readiness.Create | lib/Component.js:19-35 | without a broker URL (the latest revision only) the error is thrown and no component is returned; otherwise a component with no setting, not ready and with no timer connects to the URL |
| Readiness.Readiness.constructor | lib/Component.js:20-35 | past the URL check: no setting, not ready, no timer, and one connect call |
| Readiness.Readiness.OnConnect | lib/Component.js:36-56 | with declared settings, subscribes to each in order and arms a new timer of `Delay(timeout)`; with none, becomes ready and emits `ready` |
| Readiness.Readiness.OnTimeout | lib/Component.js:47-48 | an armed timer fires and emits `timeout` only if not ready, changing nothing else |
| Readiness.Readiness.OnMessage | lib/Component.js:58-77 | a `sys/` topic stores the decoded payload under its third segment, and becomes ready, clearing the timer and emitting `ready`, when the count first reaches the declared count; other topics are re-emitted |
| Readiness.Readiness.OnClose | lib/Component.js:78-80 | `close` is re-emitted |
| Readiness.Readiness.Get | lib/Component.js:85-89 | the stored value of the setting, else null |
| Readiness.Readiness.Set | lib/Component.js:94-100 | always stores the value; publishes it retained to the setting's topic only when propagating; readiness is not re-examined |
| Readiness.ConnectThenExpire | lib/Component.js:43-49 | connecting with a declared setting and letting its timer expire emits `timeout` and leaves the component not ready |
| Readiness.TimeoutThenReady | lib/Component.js:66-70 | a setting arriving after `timeout` still makes the component ready: `timeout` is followed by `ready` |
| LibRoute.NewLibRoute | lib/Route.js:4-13 | a null topic fails on `topic.topic`; a topic whose `topic` is not a non-empty string fails; a handler that is not a function fails; it succeeds exactly otherwise, storing component, topic and handler unchanged and options defaulting to `{}` |
| LibRoute.ExecuteLib | lib/Route.js:31-33 | the handler is called bound to the stored component with the packet |
| LibRoute.ConstructedRouteReadsBack | lib/Route.js:23-29 | `match` and `getParams` answer with the compiled topic's own `regex.exec` and `exec` |

The `Valid()` invariants are not rows of the table; they are stated here:

- `Component.Component.Valid`:
  - a start promise is pending exactly while its client has not connected;
  - every invoked handler is the handler of a declared route.
- `Router.Router.Valid`:
  - the `_connected` flag is set exactly while a connected client exists;
  - `promiseDone` is set exactly when the promise was rejected;
  - every invoked handler belongs to a route.
- `Readiness.Readiness.Valid`:
  - the component is ready exactly when it has emitted `ready`;
  - a ready component holds at least as many settings as it declared;
  - with declared settings, `ready` is emitted at most once, and `timeout` is never emitted after it.

## Left out

- The MQTT client's network behaviour and completion callbacks are not modelled. A call
  is logged when it is issued. The subscription answer `start` waits for is the event
  `OnStartSubscribed`.
- The completion of `end` is folded into the call: the client is dropped at once.
- Promise plumbing is not modelled. A rejection or a throw is a returned `Option<Exception>`.
- EventEmitter mechanics are not modelled. Emitted events are a trace in `signals`.
  An `error` event that can have no listener is the `thrown` result: the second
  pre-connect error of the earlier router, and the constructor of `lib/Component.js`
  without a URL (`Readiness.Readiness.Create`).
- Router.Router.OnError: once connected, the router's own `emit('error')` throws when
  the application attached no `error` listener. Listeners of the component are not
  modelled, so the emit is recorded as a signal, and `thrown` stays None.
- `mqtt-regex` is a foreign package. Pattern compilation and matching are
  uninterpreted functions (`Js.TopicLib`, `LibRoute.Compiled`), so no wildcard rule
  is modelled.
- `JSON.parse`, `JSON.stringify` and `toString` are parameters. So is the object
  coercion of `publish` in src/lib/Component.js:153-160: the payload is a string.
- Numbers are integers: NaN and fractions are not modelled.
- JavaScript property-key quirks are not modelled: integer-like keys enumerating first,
  and `__proto__`.
- Names inherited from `Object.prototype` are modelled as absent keys. In the source
  they read as truthy functions: a route on the filter `constructor` or `toString` is
  never subscribed by `_subscribeToRoutes` (src/lib/Component.js:266), and
  `get('toString')` on an empty store returns the inherited function rather than the
  default (dist/MemoryStore.js:72).
- `get` and `set` of src/lib/Component.js forward to the external package
  `novus-component-store-memory`, which is not part of this model.
- Configuration plumbing is not modelled: `process.env`, the aliasing of the
  module-level default options by `extend`, and `clientId`. Options are per instance.
- The immediate subscription that `route` of src/lib/Component.js attempts while not
  connected is rejected by `subscribe` before any client call. The model records no
  call and leaves the unhandled rejection out.
- Events from a client that was dropped or replaced are not modelled. This covers
  listeners left on it and a second `start` of the newest router while a client exists.
- The earlier router's `route` given a string without a function handler walks the string
  character by character. The first character throws a TypeError: on `undefined.replace`
  in the source edition (src/Component.js:84), and on creating `options` on a string
  primitive in strict mode in the shipped build (dist/Component.js:104). An empty string
  does nothing. The model has no case for a string. A single declaration object is not
  iterable, which is the `NotIterable` case.
- Router.DeclsOf: the text of the TypeError for a value that is not iterable is the
  source edition's ("routes is not iterable"). The shipped build fails in
  `routes[Symbol.iterator]()` (dist/Component.js:102) with the engine's own wording.
- A list given to the newest router's `route` that contains `null` or `undefined` throws
  "Cannot read property 'topic' of null" at that element (src/lib/Component.js:204),
  after the elements before it were pushed. Declarations are values of `RouteSpec`, which
  has no null, so only a `null` or missing first argument is modelled
  (`RouteTable.RouteCall.Missing`). Through `route`, the "route cannot be null" branch of
  `Route.NewRoute` is therefore never reached.
- setTimeout/clearTimeout timing is not modelled. A timer expiry is the event `OnTimeout`.
- The store of the earlier router is any object with the store's interface, passed in
  the options or through `setStore`. The model gives it the semantics of the working
  store in dist/MemoryStore.js.
- example.js only wires the demo together and is not part of this model.
- Router.Router.Route: the earlier `route` completes the caller's declaration objects
  in place and pushes those same objects (src/Component.js:83-89), so the caller and the
  router share them. Routes are values here, so later changes the caller makes to its
  objects are not reflected.
- Readiness.Readiness.OnMessage: the `message` event is recorded as topic and payload,
  not as the whole packet.

## Findings

| source | as written | input that shows it | evidently intended | confidence | as-written member | corrected member |
|---|---|---|---|---|---|---|
| src/MemoryStore.js:39 | `set` calls `this.__tryStringifyJSON`, which the class does not define (it defines `_tryStringifyJSON`) | `set('a', 1)` on a new store, then `get('a')`: the write throws, the read gives null | store the encoded value, as dist/MemoryStore.js does; `get` then gives 1 | high, not executed | SrcMemoryStore.SetThenGet | MemoryStore.MemoryStore.Set |
| src/Component.js:51 | `set` forwards only if `get(key) !== null` or `override`; the store forwards without override only when its own guard refuses | `set('a', v, false)` on an empty store: nothing is written | forward when the key reads as null, or when overriding, so a new key can be set without override | medium, not executed | Router.SetAsWrittenDropsNewKey | Router.Router.SetIntended |
