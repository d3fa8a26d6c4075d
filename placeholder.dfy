/** Substitution of the `{$componentId}` placeholder: `topic.replace('{$componentId}', id)`
    in `_normalizeTopic` (newest router) and `_replacePlaceholders` (earlier router).
    With a string pattern, JavaScript's `String.prototype.replace` replaces only the
    first occurrence, and expands `$$`, `$&`, `` $` `` and `$'` in the replacement. */
module Placeholder {
  import opened Js

  const Token: string := "{$componentId}"

  predicate OccursAt(s: string, pat: string, i: nat) {
    i + |pat| <= |s| && s[i..i + |pat|] == pat
  }

  /** `s.indexOf(pat, from)`, searching from `from` onwards. */
  function IndexFrom(s: string, pat: string, from: nat): (r: Option<nat>)
    ensures r.Some? ==> from <= r.value && r.value + |pat| <= |s|
    decreases |s| - from
  {
    if from + |pat| > |s| then None
    else if OccursAt(s, pat, from) then Some(from)
    else IndexFrom(s, pat, from + 1)
  }

  /** `indexOf` finds the first position at or after `from` where `pat` occurs, and
      None only when there is none. */
  lemma {:induction false} IndexFromSpec(s: string, pat: string, from: nat)
    ensures var r := IndexFrom(s, pat, from);
            && (r.Some? ==> from <= r.value && OccursAt(s, pat, r.value))
            && (r.Some? ==> forall j :: from <= j < r.value ==> !OccursAt(s, pat, j))
            && (r.None? ==> forall j :: from <= j ==> !OccursAt(s, pat, j))
    decreases |s| - from
  {
    if from + |pat| <= |s| && !OccursAt(s, pat, from) {
      IndexFromSpec(s, pat, from + 1);
    }
  }

  function IndexOf(s: string, pat: string): Option<nat> {
    IndexFrom(s, pat, 0)
  }

  /** The replacement text that `replace` inserts for the replacement string `rep`
      (GetSubstitution of ECMAScript with no capture groups): `$$` gives `$`, `$&`
      the matched text, `` $` `` the text before the match, `$'` the text after it;
      any other character, `$` included, stands for itself. */
  function Expand(rep: string, matched: string, before: string, after: string): string
    decreases |rep|
  {
    if rep == [] then []
    else if rep[0] == '$' && |rep| >= 2 && rep[1] == '$' then "$" + Expand(rep[2..], matched, before, after)
    else if rep[0] == '$' && |rep| >= 2 && rep[1] == '&' then matched + Expand(rep[2..], matched, before, after)
    else if rep[0] == '$' && |rep| >= 2 && rep[1] == '`' then before + Expand(rep[2..], matched, before, after)
    else if rep[0] == '$' && |rep| >= 2 && rep[1] == '\'' then after + Expand(rep[2..], matched, before, after)
    else [rep[0]] + Expand(rep[1..], matched, before, after)
  }

  /** A replacement without `$` is inserted literally. */
  lemma {:induction false} ExpandLiteral(rep: string, matched: string, before: string, after: string)
    requires '$' !in rep
    ensures Expand(rep, matched, before, after) == rep
  {
    if rep != [] {
      assert rep[0] != '$';
      ExpandLiteral(rep[1..], matched, before, after);
    }
  }

  /** `s.replace(pat, rep)` for a string pattern. */
  function ReplaceFirst(s: string, pat: string, rep: string): string {
    match IndexOf(s, pat)
    case None => s
    case Some(i) => s[..i] + Expand(rep, pat, s[..i], s[i + |pat|..]) + s[i + |pat|..]
  }

  /** The component's `normalize(t)`: replace the first placeholder by the component's id. */
  function Normalize(componentId: string, t: string): string {
    ReplaceFirst(t, Token, componentId)
  }

  /** A topic without the placeholder is left as it is. */
  lemma NormalizeWithoutToken(componentId: string, t: string)
    requires forall i :: !OccursAt(t, Token, i)
    ensures Normalize(componentId, t) == t
  {
    IndexFromSpec(t, Token, 0);
  }

  /** Only the first placeholder is replaced: the text before it has no placeholder,
      the id goes through `replace`'s `$` patterns (and is inserted literally when it
      has no `$`), and the rest of the topic, further placeholders included, is kept
      as it is. */
  lemma NormalizeFirstOnly(componentId: string, t: string, i: nat)
    requires OccursAt(t, Token, i)
    requires forall j :: 0 <= j < i ==> !OccursAt(t, Token, j)
    ensures Normalize(componentId, t)
            == t[..i] + Expand(componentId, Token, t[..i], t[i + |Token|..]) + t[i + |Token|..]
    ensures '$' !in componentId ==> Normalize(componentId, t) == t[..i] + componentId + t[i + |Token|..]
  {
    IndexFromSpec(t, Token, 0);
    assert IndexOf(t, Token) == Some(i);
    if '$' !in componentId {
      ExpandLiteral(componentId, Token, t[..i], t[i + |Token|..]);
    }
  }

  /** The example of a route declared on `{$componentId}/status` by component `comp1`. */
  lemma NormalizeStatusExample()
    ensures Normalize("comp1", "{$componentId}/status") == "comp1/status"
  {
    var t := "{$componentId}/status";
    assert t == Token + "/status";
    assert OccursAt(t, Token, 0);
    NormalizeFirstOnly("comp1", t, 0);
    assert t[..0] == [] && t[|Token|..] == "/status";
  }

  /** A topic argument of `subscribe`, `unsubscribe` and `_normalizeTopic`: one topic,
      an array of topics, or an object from topic to QoS. */
  datatype TopicArg = One(topic: string) | Many(topics: seq<string>) | Keyed(filters: Obj<int>)

  /** The object branch of `_normalizeTopic`: every key is normalised and assigned, in
      the object's key order, into a new object. */
  function RenameKeys(componentId: string, o: Obj<int>): Obj<int>
    decreases |o|
  {
    if o == [] then []
    else Put(RenameKeys(componentId, o[..|o| - 1]), Normalize(componentId, o[|o| - 1].0), o[|o| - 1].1)
  }

  /** `_normalizeTopic`: strings are normalised, arrays element by element, objects key by key. */
  function NormalizeTopic(componentId: string, topic: TopicArg): (r: TopicArg)
    ensures topic.One? ==> r == One(Normalize(componentId, topic.topic))
    ensures topic.Many? ==>
              && r.Many? && |r.topics| == |topic.topics|
              && forall i :: 0 <= i < |topic.topics| ==> r.topics[i] == Normalize(componentId, topic.topics[i])
    ensures topic.Keyed? ==> r.Keyed?
  {
    match topic
    case One(t) => One(Normalize(componentId, t))
    case Many(ts) => Many(seq(|ts|, i requires 0 <= i < |ts| => Normalize(componentId, ts[i])))
    case Keyed(o) => Keyed(RenameKeys(componentId, o))
  }

  /** The keys of the normalised object are the normalised keys. */
  lemma {:induction false} RenameKeysKeys(componentId: string, o: Obj<int>)
    ensures KeysOf(RenameKeys(componentId, o)) == set k | k in KeysOf(o) :: Normalize(componentId, k)
  {
    if o != [] {
      var pre, last := o[..|o| - 1], o[|o| - 1];
      RenameKeysKeys(componentId, pre);
      PutKeys(RenameKeys(componentId, pre), Normalize(componentId, last.0), last.1);
      assert o == pre + [last];
      forall x | x in KeysOf(o) ensures x in KeysOf(pre) + {last.0} {
        var i :| 0 <= i < |o| && o[i].0 == x;
        if i < |o| - 1 { assert pre[i].0 == x; }
      }
      forall x | x in KeysOf(pre) + {last.0} ensures x in KeysOf(o) {
        if x in KeysOf(pre) {
          var i :| 0 <= i < |pre| && pre[i].0 == x;
          assert o[i].0 == x;
        } else {
          assert o[|o| - 1].0 == x;
        }
      }
    }
  }

  /** An object whose keys have no placeholder (and no repeated key) is passed on unchanged,
      values and key order included. */
  lemma {:induction false} RenameKeysIdentity(componentId: string, o: Obj<int>)
    requires DistinctKeys(o)
    requires forall i, j :: 0 <= i < |o| ==> !OccursAt(o[i].0, Token, j)
    ensures RenameKeys(componentId, o) == o
  {
    if o != [] {
      var pre, last := o[..|o| - 1], o[|o| - 1];
      assert DistinctKeys(pre) by {
        forall i, j | 0 <= i < j < |pre| ensures pre[i].0 != pre[j].0 {
          assert pre[i] == o[i] && pre[j] == o[j];
        }
      }
      forall i, j | 0 <= i < |pre| ensures !OccursAt(pre[i].0, Token, j) {
        assert pre[i] == o[i];
      }
      RenameKeysIdentity(componentId, pre);
      NormalizeWithoutToken(componentId, last.0);
      assert last.0 !in KeysOf(pre) by {
        forall i | 0 <= i < |pre| ensures pre[i].0 != last.0 {
          assert pre[i] == o[i];
        }
      }
      PutAbsent(pre, last.0, last.1);
      assert pre + [last] == o;
    }
  }

  /** Every value is kept under its normalised key, when no two keys of the object are
      equal or normalise to the same key. */
  lemma {:induction false} RenameKeysValues(componentId: string, o: Obj<int>)
    requires DistinctKeys(o)
    requires forall i, j :: 0 <= i < |o| && 0 <= j < |o| && Normalize(componentId, o[i].0) == Normalize(componentId, o[j].0) ==> o[i].0 == o[j].0
    ensures forall i :: 0 <= i < |o| ==> Get(RenameKeys(componentId, o), Normalize(componentId, o[i].0)) == Some(o[i].1)
  {
    if o != [] {
      var pre, last := o[..|o| - 1], o[|o| - 1];
      assert DistinctKeys(pre) by {
        forall i, j | 0 <= i < j < |pre| ensures pre[i].0 != pre[j].0 {
          assert pre[i] == o[i] && pre[j] == o[j];
        }
      }
      forall i, j | 0 <= i < |pre| && 0 <= j < |pre| && Normalize(componentId, pre[i].0) == Normalize(componentId, pre[j].0)
        ensures pre[i].0 == pre[j].0
      {
        assert pre[i] == o[i] && pre[j] == o[j];
      }
      RenameKeysValues(componentId, pre);
      forall i | 0 <= i < |o| ensures Get(RenameKeys(componentId, o), Normalize(componentId, o[i].0)) == Some(o[i].1) {
        PutGet(RenameKeys(componentId, pre), Normalize(componentId, last.0), last.1, Normalize(componentId, o[i].0));
        if i < |o| - 1 {
          assert pre[i] == o[i];
          assert o[i].0 != last.0;
        }
      }
    }
  }
}
