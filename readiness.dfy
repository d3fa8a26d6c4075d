/** The readiness component (lib/Component.js, and its first revision Component.js): on
    every connect it asks the broker for its declared settings and arms a timeout; it
    becomes ready once it holds at least as many settings as it declared. Client events
    and timer expiries are methods; the calls on the client are logged in `calls`, the
    events the component emits in `signals`. */
module Readiness {
  import opened Js
  import opened Settings

  /** Component.js (First) or lib/Component.js (Latest). */
  datatype Revision = First | Latest

  /** A timer `setTimeout` created: still armed, expired, or cleared before expiring. */
  datatype Timer = Armed(delay: int) | Fired(delay: int) | Cleared(delay: int)

  /** A call on the MQTT client; `Connect(None)` is a connect with no URL. */
  datatype Call = Connect(url: Option<string>) | Subscribe(topic: string) | Publish(topic: string, value: Value, retain: bool)

  /** An event the component emits. */
  datatype Signal = Ready | Timeout | Message(topic: string, payload: seq<bv8>) | Close

  const MissingUrl := Failure("MQTT broker URL required but not set")

  /** A broker URL lib/Component.js accepts: present and not empty. */
  predicate HasUrl(url: Option<string>) {
    url.Some? && url.value != ""
  }

  /** `options.timeout || 10000`. */
  function Delay(timeout: int): (r: int)
    ensures r != 0
    ensures timeout != 0 ==> r == timeout
  {
    if timeout == 0 then 10000 else timeout
  }

  /** The subscriptions of the connect handler: one per declared setting, in order. */
  function SettingsSubscriptions(componentId: string, declared: seq<string>): (r: seq<Call>)
    ensures |r| == |declared|
    ensures forall i :: 0 <= i < |declared| ==> r[i] == Subscribe(SettingsTopic(componentId, declared[i]))
  {
    seq(|declared|, i requires 0 <= i < |declared| => Subscribe(SettingsTopic(componentId, declared[i])))
  }

  /** `clearTimeout(readyTimeout)`: an armed timer is cleared; anything else is left alone. */
  function ClearTimer(timers: seq<Timer>, handle: Option<nat>): (r: seq<Timer>)
    ensures |r| == |timers|
    ensures forall i :: 0 <= i < |timers| && handle != Some(i) ==> r[i] == timers[i]
    ensures handle.Some? && handle.value < |timers| ==>
              r[handle.value] == if timers[handle.value].Armed? then Cleared(timers[handle.value].delay) else timers[handle.value]
  {
    if handle.Some? && handle.value < |timers| && timers[handle.value].Armed?
    then timers[handle.value := Cleared(timers[handle.value].delay)]
    else timers
  }

  class Readiness {
    const componentId: string
    const declared: seq<string>
    const timeout: int
    const revision: Revision
    /** `message.toString()` of a payload buffer. */
    const decode: seq<bv8> -> string

    var settings: map<string, Value>
    var ready: bool
    var timers: seq<Timer>
    var readyTimeout: Option<nat>
    var calls: seq<Call>
    var signals: seq<Signal>

    /** The invariant every event keeps: the component is ready exactly when it has
        emitted `ready`, and then holds at least as many settings as it declared; with
        declared settings it emits `ready` at most once and never `timeout` after it; only
        a ready component has cleared a timer. */
    predicate Valid()
      reads this
    {
      && (ready ==> |settings| >= |declared|)
      && (ready <==> Ready in signals)
      && (|declared| > 0 ==> multiset(signals)[Ready] == if ready then 1 else 0)
      && (forall i, j :: 0 <= i < j < |signals| && signals[i] == Ready ==> signals[j] != Timeout)
      && (readyTimeout.Some? ==> readyTimeout.value < |timers|)
      && (forall i :: 0 <= i < |timers| && timers[i].Cleared? ==> ready)
    }

    /** `new Component(componentId, options)`. lib/Component.js first checks for a broker
        URL; without one, its `emit('error')` runs before anyone can have attached a
        listener, so the error is thrown out of the constructor and no component reaches
        the caller. Otherwise the component is built and connects. */
    static method Create(componentId: string, url: Option<string>, declared: seq<string>, timeout: int, revision: Revision, decode: seq<bv8> -> string)
      returns (c: Readiness?, thrown: Option<Exception>)
      ensures thrown.Some? <==> c == null
      ensures thrown.Some? <==> revision == Latest && !HasUrl(url)
      ensures thrown.Some? ==> thrown == Some(MissingUrl)
      ensures c != null ==>
                && fresh(c) && c.Valid()
                && c.componentId == componentId && c.declared == declared && c.timeout == timeout
                && c.revision == revision && c.decode == decode
                && c.settings == map[] && !c.ready && c.timers == [] && c.readyTimeout == None
                && c.calls == [Connect(url)] && c.signals == []
    {
      if revision == Latest && !HasUrl(url) {
        return null, Some(MissingUrl);
      }
      c := new Readiness(componentId, url, declared, timeout, revision, decode);
      thrown := None;
    }

    /** The constructor past the URL check (which `Create` performs): nothing received,
        not ready, no timer, and the client connects. */
    constructor(componentId: string, url: Option<string>, declared: seq<string>, timeout: int, revision: Revision, decode: seq<bv8> -> string)
      requires revision == First || HasUrl(url)
      ensures Valid()
      ensures this.componentId == componentId && this.declared == declared && this.timeout == timeout
      ensures this.revision == revision && this.decode == decode
      ensures settings == map[] && !ready && timers == [] && readyTimeout == None
      ensures calls == [Connect(url)] && signals == []
    {
      this.componentId := componentId;
      this.declared := declared;
      this.timeout := timeout;
      this.revision := revision;
      this.decode := decode;
      settings := map[];
      ready := false;
      timers := [];
      readyTimeout := None;
      calls := [Connect(url)];
      signals := [];
    }

    /** The client's `connect` event, on the first connect and on every reconnect: with
        declared settings, each is subscribed to and a new timer armed; without any, the
        component becomes ready and emits `ready`. */
    method OnConnect()
      requires Valid()
      modifies this
      ensures Valid()
      ensures |declared| > 0 ==>
                && calls == old(calls) + SettingsSubscriptions(componentId, declared)
                && timers == old(timers) + [Armed(Delay(timeout))]
                && readyTimeout == Some(|old(timers)|)
                && ready == old(ready) && signals == old(signals)
      ensures |declared| == 0 ==>
                && ready && signals == old(signals) + [Ready]
                && calls == old(calls) && timers == old(timers) && readyTimeout == old(readyTimeout)
      ensures settings == old(settings)
    {
      if |declared| > 0 {
        ghost var calls0 := calls;
        for k := 0 to |declared|
          invariant calls == calls0 + SettingsSubscriptions(componentId, declared[..k])
          invariant settings == old(settings) && ready == old(ready) && signals == old(signals)
          invariant timers == old(timers) && readyTimeout == old(readyTimeout)
        {
          assert SettingsSubscriptions(componentId, declared[..k + 1])
                 == SettingsSubscriptions(componentId, declared[..k]) + [Subscribe(SettingsTopic(componentId, declared[k]))];
          calls := calls + [Subscribe(SettingsTopic(componentId, declared[k]))];
        }
        assert declared[..|declared|] == declared;
        timers := timers + [Armed(Delay(timeout))];
        readyTimeout := Some(|timers| - 1);
      } else {
        ready := true;
        signals := signals + [Ready];
      }
    }

    /** Timer `i` expires. An armed timer fires and emits `timeout` unless the component is
        ready by then; nothing else changes, so readiness can still follow. */
    method OnTimeout(i: nat)
      requires Valid()
      modifies this
      ensures Valid()
      ensures i < |old(timers)| && old(timers)[i].Armed? ==>
                && timers == old(timers)[i := Fired(old(timers)[i].delay)]
                && signals == old(signals) + (if ready then [] else [Timeout])
      ensures !(i < |old(timers)| && old(timers)[i].Armed?) ==> timers == old(timers) && signals == old(signals)
      ensures ready == old(ready) && settings == old(settings) && calls == old(calls) && readyTimeout == old(readyTimeout)
    {
      if i < |timers| && timers[i].Armed? {
        timers := timers[i := Fired(timers[i].delay)];
        if !ready {
          signals := signals + [Timeout];
        }
      }
    }

    /** The client's `message` event. A topic containing `sys/` is a setting: the payload
        (decoded to a string in lib/Component.js, the raw buffer in Component.js) is
        stored under the third segment of the topic, and a component that is not yet
        ready becomes ready once it holds as many settings as it declared, clearing its
        latest timer. Any other message is re-emitted. */
    method OnMessage(topic: string, payload: seq<bv8>)
      requires Valid()
      modifies this
      ensures Valid()
      ensures IsSettingsTopic(topic) ==>
                var stored := old(settings)[SettingsKey(topic) := if revision == Latest then Str(decode(payload)) else Buffer(payload)];
                && settings == stored
                && ready == (old(ready) || |stored| >= |declared|)
                && (!old(ready) && ready ==> signals == old(signals) + [Ready] && timers == ClearTimer(old(timers), readyTimeout))
                && (old(ready) || !ready ==> signals == old(signals) && timers == old(timers))
      ensures !IsSettingsTopic(topic) ==>
                settings == old(settings) && ready == old(ready) && signals == old(signals) + [Message(topic, payload)] && timers == old(timers)
      ensures calls == old(calls) && readyTimeout == old(readyTimeout)
    {
      if IsSettingsTopic(topic) {
        var key := SettingsKey(topic);
        settings := settings[key := if revision == Latest then Str(decode(payload)) else Buffer(payload)];
        if !ready && |settings| >= |declared| {
          assert Ready !in signals;
          ready := true;
          timers := ClearTimer(timers, readyTimeout);
          signals := signals + [Ready];
        }
      } else {
        assert multiset(signals + [Message(topic, payload)])[Ready] == multiset(signals)[Ready];
        signals := signals + [Message(topic, payload)];
      }
    }

    /** The client's `close` event is re-emitted. */
    method OnClose()
      requires Valid()
      modifies this
      ensures Valid()
      ensures signals == old(signals) + [Close]
      ensures settings == old(settings) && ready == old(ready) && timers == old(timers)
      ensures calls == old(calls) && readyTimeout == old(readyTimeout)
    {
      signals := signals + [Close];
    }

    /** `get(property)` of lib/Component.js: the component's own value, else null. */
    function Get(property: string): (r: Value)
      requires revision == Latest
      reads this
      ensures property in settings ==> r == settings[property]
      ensures property !in settings ==> r == Null
    {
      if property in settings then settings[property] else Null
    }

    /** `set(property, value, propagate)` of lib/Component.js: the value is stored and,
        when propagating, published retained on the setting's topic. Readiness is not
        re-examined. */
    method Set(property: string, value: Value, propagate: bool)
      requires Valid() && revision == Latest
      modifies this
      ensures Valid()
      ensures settings == old(settings)[property := value]
      ensures calls == old(calls) + (if propagate then [Publish(SettingsTopic(componentId, property), value, true)] else [])
      ensures ready == old(ready) && signals == old(signals) && timers == old(timers) && readyTimeout == old(readyTimeout)
    {
      settings := settings[property := value];
      if propagate {
        calls := calls + [Publish(SettingsTopic(componentId, property), value, true)];
      }
    }
  }

  /** A component with one declared setting connects and its timer expires before
      the setting arrives: it emits `timeout` and is not ready. */
  method ConnectThenExpire(componentId: string, setting: string, url: string, decode: seq<bv8> -> string)
    returns (c: Readiness)
    requires url != ""
    ensures fresh(c) && c.Valid()
    ensures c.revision == Latest && c.declared == [setting] && c.componentId == componentId
    ensures c.signals == [Timeout] && !c.ready && c.settings == map[]
  {
    c := new Readiness(componentId, Some(url), [setting], 0, Latest, decode);
    c.OnConnect();
    assert c.timers == [Armed(10000)] && c.signals == [] && !c.ready;
    c.OnTimeout(0);
  }

  /** A setting that arrives after its timer expired still makes the component ready:
      `timeout` is followed by `ready`. */
  method TimeoutThenReady(componentId: string, setting: string, url: string, decode: seq<bv8> -> string)
    returns (signals: seq<Signal>)
    requires '/' !in componentId && '/' !in setting && url != ""
    ensures signals == [Timeout, Ready]
  {
    var c := ConnectThenExpire(componentId, setting, url, decode);
    var topic := SettingsTopic(componentId, setting);
    SettingsTopicKey(componentId, setting);
    c.OnMessage(topic, []);
    assert |c.settings| == 1;
    signals := c.signals;
  }
}
