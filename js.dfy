/** The pieces of JavaScript semantics that every revision of the component relies on:
    values and their truthiness, plain objects keyed by strings in insertion order,
    the topic-pattern library the routes compile with, and the thrown errors. */
module Js {

  datatype Option<+T> = None | Some(value: T) {
    function GetOr(default: T): T {
      match this
      case Some(v) => v
      case None => default
    }
  }

  datatype Result<+T, +E> = Ok(value: T) | Err(error: E)

  /** An exception a JavaScript operation throws or a promise is rejected with. */
  datatype Exception = TypeError(message: string) | Failure(message: string)

  /** The JavaScript values the component stores and passes around. Numbers are
      integers here: NaN and fractions are not modelled. */
  datatype Value =
    | Undefined
    | Null
    | Bool(b: bool)
    | Number(n: int)
    | Str(s: string)
    | Buffer(bytes: seq<bv8>)
    | Object(id: nat)

  /** JavaScript truthiness: undefined, null, false, 0 and "" are falsy. */
  predicate Truthy(v: Value) {
    match v
    case Undefined => false
    case Null => false
    case Bool(b) => b
    case Number(n) => n != 0
    case Str(s) => s != ""
    case _ => true
  }

  /** The named parameters mqtt-regex extracts from a matching topic. */
  type Params = map<string, string>

  /** The mqtt-regex package, which is not part of this model: a topic pattern
      compiles to a subscription filter (`topic`) and an `exec` that returns the
      named parameters of a matching topic, or null. */
  datatype TopicLib = TopicLib(filter: string -> string, exec: (string, string) -> Option<Params>)

  /** A plain object with string keys, listed in insertion order (the order of a
      `for ... in` loop over keys that are not array indices). */
  type Obj<V> = seq<(string, V)>

  function KeysOf<V>(o: Obj<V>): set<string> {
    set i | 0 <= i < |o| :: o[i].0
  }

  predicate DistinctKeys<V>(o: Obj<V>) {
    forall i, j :: 0 <= i < j < |o| ==> o[i].0 != o[j].0
  }

  /** `o[k]`, with None for a key the object does not have. */
  function Get<V>(o: Obj<V>, k: string): Option<V> {
    if o == [] then None
    else if o[0].0 == k then Some(o[0].1)
    else Get(o[1..], k)
  }

  /** `o[k] = v`: an existing key keeps its position, a new key goes last. */
  function Put<V>(o: Obj<V>, k: string, v: V): Obj<V> {
    if o == [] then [(k, v)]
    else if o[0].0 == k then [(k, v)] + o[1..]
    else [o[0]] + Put(o[1..], k, v)
  }

  lemma {:induction false} KeysOfCons<V>(o: Obj<V>)
    requires o != []
    ensures KeysOf(o) == {o[0].0} + KeysOf(o[1..])
  {
    forall x | x in KeysOf(o) ensures x in {o[0].0} + KeysOf(o[1..]) {
      var i :| 0 <= i < |o| && o[i].0 == x;
      if i > 0 { assert o[1..][i - 1].0 == x; }
    }
    forall x | x in KeysOf(o[1..]) ensures x in KeysOf(o) {
      var i :| 0 <= i < |o[1..]| && o[1..][i].0 == x;
      assert o[i + 1].0 == x;
    }
  }

  /** Reading a key finds a value exactly when the object has that key. */
  lemma {:induction false} GetPresent<V>(o: Obj<V>, k: string)
    ensures Get(o, k).Some? <==> k in KeysOf(o)
  {
    if o != [] {
      KeysOfCons(o);
      GetPresent(o[1..], k);
    }
  }

  /** After `o[k] = v`, reading `k` gives `v` and every other key reads as before. */
  lemma {:induction false} PutGet<V>(o: Obj<V>, k: string, v: V, k': string)
    ensures Get(Put(o, k, v), k') == if k' == k then Some(v) else Get(o, k')
  {
    if o != [] && o[0].0 != k {
      PutGet(o[1..], k, v, k');
    }
  }

  /** `o[k] = v` adds `k` to the keys and nothing else. */
  lemma {:induction false} PutKeys<V>(o: Obj<V>, k: string, v: V)
    ensures KeysOf(Put(o, k, v)) == KeysOf(o) + {k}
  {
    if o == [] {
      KeysOfCons(Put(o, k, v));
      assert Put(o, k, v)[1..] == [];
    } else if o[0].0 == k {
      KeysOfCons(o);
      KeysOfCons(Put(o, k, v));
      assert Put(o, k, v)[1..] == o[1..];
    } else {
      KeysOfCons(o);
      KeysOfCons(Put(o, k, v));
      assert Put(o, k, v)[1..] == Put(o[1..], k, v);
      PutKeys(o[1..], k, v);
    }
  }

  /** A new key is appended at the end. */
  lemma {:induction false} PutAbsent<V>(o: Obj<V>, k: string, v: V)
    requires k !in KeysOf(o)
    ensures Put(o, k, v) == o + [(k, v)]
  {
    if o != [] {
      KeysOfCons(o);
      PutAbsent(o[1..], k, v);
    }
  }

  /** The tail of an object with distinct keys has distinct keys, none of them its first. */
  lemma DistinctTail<V>(o: Obj<V>)
    requires o != [] && DistinctKeys(o)
    ensures DistinctKeys(o[1..]) && o[0].0 !in KeysOf(o[1..])
  {
    forall i, j | 0 <= i < j < |o[1..]| ensures o[1..][i].0 != o[1..][j].0 {
      assert o[1..][i] == o[i + 1] && o[1..][j] == o[j + 1];
    }
    forall m | 0 <= m < |o[1..]| ensures o[1..][m].0 != o[0].0 {
      assert o[1..][m] == o[m + 1];
    }
  }

  /** Putting an entry with a new key in front keeps the keys distinct. */
  lemma DistinctCons<V>(x: (string, V), o: Obj<V>)
    requires DistinctKeys(o) && x.0 !in KeysOf(o)
    ensures DistinctKeys([x] + o)
  {
    var r := [x] + o;
    forall i, j | 0 <= i < j < |r| ensures r[i].0 != r[j].0 {
      assert r[j] == o[j - 1];
      if i > 0 { assert r[i] == o[i - 1]; }
    }
  }

  /** Assignment never creates a second entry for a key. */
  lemma {:induction false} PutDistinct<V>(o: Obj<V>, k: string, v: V)
    requires DistinctKeys(o)
    ensures DistinctKeys(Put(o, k, v))
  {
    if o != [] {
      DistinctTail(o);
      if o[0].0 == k {
        DistinctCons((k, v), o[1..]);
      } else {
        PutDistinct(o[1..], k, v);
        PutKeys(o[1..], k, v);
        DistinctCons(o[0], Put(o[1..], k, v));
      }
    }
  }
}
