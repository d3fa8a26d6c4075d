/** Settings topics of the readiness component (lib/Component.js, Component.js): a
    setting `s` of component `id` lives on `sys/<id>/<s>`, and an incoming settings
    message is stored under the third `/`-separated segment of its topic. */
module Settings {
  import opened Js
  import opened Placeholder

  /** `util.format('sys/%s/%s', id, setting)`. */
  function SettingsTopic(componentId: string, setting: string): string {
    "sys/" + componentId + "/" + setting
  }

  /** `s.split(sep)` for a one-character separator: the empty string splits into one
      empty part, and every separator starts a new part. */
  function Split(s: string, sep: char): (r: seq<string>)
    ensures |r| >= 1
    ensures |r| == 1 + multiset(s)[sep]
    ensures forall k :: 0 <= k < |r| ==> sep !in r[k]
    decreases |s|
  {
    if s == [] then [""]
    else
      var rest := Split(s[1..], sep);
      assert s == [s[0]] + s[1..];
      if s[0] == sep then [""] + rest
      else [[s[0]] + rest[0]] + rest[1..]
  }

  /** A string without the separator is one part. */
  lemma {:induction false} SplitNoSep(a: string, sep: char)
    requires sep !in a
    ensures Split(a, sep) == [a]
  {
    if a != [] {
      SplitNoSep(a[1..], sep);
      assert [a[0]] + a[1..] == a;
    }
  }

  /** Splitting `a + sep + b`, with no separator in `a`, gives `a` followed by the parts of `b`. */
  lemma {:induction false} SplitConcat(a: string, sep: char, b: string)
    requires sep !in a
    ensures Split(a + [sep] + b, sep) == [a] + Split(b, sep)
  {
    if a == [] {
      assert a + [sep] + b == [sep] + b;
      assert ([sep] + b)[1..] == b;
    } else {
      assert (a + [sep] + b)[1..] == a[1..] + [sep] + b;
      SplitConcat(a[1..], sep, b);
      assert [a[0]] + a[1..] == a;
    }
  }

  /** `topic.split('/')[2]` used as a property name: a topic with fewer than three
      segments gives `undefined`, which names the property "undefined". */
  function SettingsKey(topic: string): string {
    var parts := Split(topic, '/');
    if |parts| > 2 then parts[2] else "undefined"
  }

  /** `topic.indexOf('sys/') != -1`: `sys/` anywhere in the topic, not only at its start. */
  predicate IsSettingsTopic(topic: string) {
    IndexOf(topic, "sys/").Some?
  }

  /** The topic of a setting, with its separators spelled out. */
  lemma TopicShape(componentId: string, setting: string)
    ensures SettingsTopic(componentId, setting) == "sys" + ['/'] + (componentId + ['/'] + setting)
  {
    assert "sys/" == "sys" + ['/'];
  }

  /** The topic of a setting is a settings topic, and its message is stored under the
      setting's name, provided neither the component id nor the name contains `/`. */
  lemma SettingsTopicKey(componentId: string, setting: string)
    requires '/' !in componentId && '/' !in setting
    ensures IsSettingsTopic(SettingsTopic(componentId, setting))
    ensures SettingsKey(SettingsTopic(componentId, setting)) == setting
  {
    var t := SettingsTopic(componentId, setting);
    assert OccursAt(t, "sys/", 0);
    TopicShape(componentId, setting);
    SplitConcat("sys", '/', componentId + ['/'] + setting);
    SplitConcat(componentId, '/', setting);
    SplitNoSep(setting, '/');
  }

  /** The topic of a setting of component `a/b`, with its separators spelled out. */
  lemma SlashTopicShape(a: string, b: string, setting: string)
    ensures SettingsTopic(a + "/" + b, setting) == "sys" + ['/'] + (a + ['/'] + (b + ['/'] + setting))
  {
    assert "sys/" == "sys" + ['/'];
    assert a + "/" + b + "/" + setting == a + ['/'] + (b + ['/'] + setting);
  }

  /** A component id with a `/` moves the key: any setting of component `a/b` is stored
      under `b`. */
  lemma SettingsKeyWithSlashInId(a: string, b: string, setting: string)
    requires '/' !in a && '/' !in b
    ensures SettingsKey(SettingsTopic(a + "/" + b, setting)) == b
  {
    var inner := b + ['/'] + setting;
    var outer := a + ['/'] + inner;
    SlashTopicShape(a, b, setting);
    SplitConcat("sys", '/', outer);
    SplitConcat(a, '/', inner);
    SplitConcat(b, '/', setting);
  }

  /** A topic is a settings message exactly when `sys/` occurs anywhere in it, not only
      at its start. */
  lemma NestedSysIsSettings(topic: string)
    ensures IsSettingsTopic(topic) <==> exists i: nat :: OccursAt(topic, "sys/", i)
  {
    IndexFromSpec(topic, "sys/", 0);
  }

  /** For instance, `home/sys/x` is a settings message. */
  lemma NestedSysExample()
    ensures IsSettingsTopic("home/sys/x")
  {
    assert OccursAt("home/sys/x", "sys/", 5);
    NestedSysIsSettings("home/sys/x");
  }
}
