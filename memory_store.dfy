/** The key-value store of the earlier router (dist/MemoryStore.js): values are kept
    JSON-encoded in a plain object and decoded when read back. */
module MemoryStore {
  import opened Js

  /** `JSON.parse` and `JSON.stringify`, which are not part of this model: None is a
      call that throws. `stringify` yields a string, or undefined for values JSON
      cannot represent. */
  datatype Json = Json(parse: Value -> Option<Value>, stringify: Value -> Option<Value>)

  /** `_tryParseJSON`: the decoded value, or the argument itself when decoding throws. */
  function TryParse(json: Json, v: Value): Value {
    json.parse(v).GetOr(v)
  }

  /** `_tryStringifyJSON`: the encoded value, or the argument itself when encoding throws. */
  function TryStringify(json: Json, v: Value): Value {
    json.stringify(v).GetOr(v)
  }

  /** The stored object: a missing key reads as undefined. */
  type Store = map<string, Value>

  /** The guard of `set`: a key whose stored value is falsy is always written, one
      with a truthy value only when overriding. */
  predicate MayWrite(m: Store, key: string, override: bool) {
    !(key in m && Truthy(m[key])) || override
  }

  /** The store after `set(key, value, override)`. */
  function Write(json: Json, m: Store, key: string, value: Value, override: bool): Store {
    if MayWrite(m, key, override) then m[key := TryStringify(json, value)] else m
  }

  /** `get(key, def)`: the decoded value of a key holding a truthy value, else `def`. */
  function Lookup(json: Json, m: Store, key: string, def: Value): Value {
    if key in m && Truthy(m[key]) then TryParse(json, m[key]) else def
  }

  /** A value whose encoding is a non-empty string that decodes back to it. */
  predicate RoundTrips(json: Json, v: Value) {
    && json.stringify(v).Some?
    && json.stringify(v).value.Str?
    && json.stringify(v).value.s != ""
    && json.parse(json.stringify(v).value) == Some(v)
  }

  /** What a write the guard admits reads back as, for every value: the stored encoding
      decoded again when that encoding is truthy, and the default otherwise (a value
      JSON encodes as undefined or the empty string). */
  lemma WriteLookup(json: Json, m: Store, key: string, value: Value, override: bool, def: Value)
    requires MayWrite(m, key, override)
    ensures var stored := TryStringify(json, value);
            Lookup(json, Write(json, m, key, value, override), key, def)
            == if Truthy(stored) then TryParse(json, stored) else def
  {
  }

  /** A value that survives a JSON round trip is read back as written, whatever the default. */
  lemma WriteThenLookup(json: Json, m: Store, key: string, value: Value, override: bool, def: Value)
    requires MayWrite(m, key, override) && RoundTrips(json, value)
    ensures Lookup(json, Write(json, m, key, value, override), key, def) == value
  {
    WriteLookup(json, m, key, value, override, def);
  }

  /** A write to one key leaves every other key as it read before. */
  lemma WriteOtherKeys(json: Json, m: Store, key: string, value: Value, override: bool, other: string, def: Value)
    requires other != key
    ensures Lookup(json, Write(json, m, key, value, override), other, def) == Lookup(json, m, other, def)
  {
  }

  /** Without overriding, a key holding a truthy value keeps it. */
  lemma WriteKeepsPresent(json: Json, m: Store, key: string, value: Value)
    requires key in m && Truthy(m[key])
    ensures Write(json, m, key, value, false) == m
  {
  }

  /** A key never written, or holding a falsy value, reads as the default. */
  lemma LookupMissing(json: Json, m: Store, key: string, def: Value)
    requires !(key in m && Truthy(m[key]))
    ensures Lookup(json, m, key, def) == def
  {
  }

  class MemoryStore {
    const json: Json
    var store: Store

    constructor(json: Json)
      ensures this.json == json && store == map[]
    {
      this.json := json;
      store := map[];
    }

    /** `set(key, value, override)`; `override` defaults to true. */
    method Set(key: string, value: Value, override: Option<bool>)
      modifies this
      ensures store == Write(json, old(store), key, value, override.GetOr(true))
      ensures MayWrite(old(store), key, override.GetOr(true)) ==> key in store && store[key] == TryStringify(json, value)
      ensures forall k :: k != key ==> (k in store <==> k in old(store)) && (k in store ==> store[k] == old(store)[k])
    {
      if MayWrite(store, key, override.GetOr(true)) {
        store := store[key := TryStringify(json, value)];
      }
    }

    /** `get(key, def)`; `def` defaults to null. */
    function Get(key: string, def: Option<Value>): Value
      reads this
    {
      Lookup(json, store, key, def.GetOr(Null))
    }
  }
}

/** The same store as written in src/MemoryStore.js: `set` calls `__tryStringifyJSON`,
    which the class does not define, so every write the guard admits throws before the
    store changes, and the store stays empty. */
module SrcMemoryStore {
  import opened Js
  import opened MemoryStore

  const MissingMethod := TypeError("this.__tryStringifyJSON is not a function")

  class SrcMemoryStore {
    const json: Json
    var store: Store

    /** The store never holds anything. */
    predicate Valid()
      reads this
    {
      store == map[]
    }

    constructor(json: Json)
      ensures Valid() && this.json == json
    {
      this.json := json;
      store := map[];
    }

    /** `set(key, value, override)` as written: when the guard admits the write, the
        call of the missing method throws and nothing is stored. */
    method Set(key: string, value: Value, override: Option<bool>) returns (thrown: Option<Exception>)
      requires Valid()
      modifies this
      ensures Valid()
      ensures store == old(store)
      ensures thrown == if MayWrite(old(store), key, override.GetOr(true)) then Some(MissingMethod) else None
    {
      if MayWrite(store, key, override.GetOr(true)) {
        return Some(MissingMethod);
      }
      thrown := None;
    }

    /** `get(key, def)`: with nothing stored, always the default. */
    function Get(key: string, def: Option<Value>): (r: Value)
      requires Valid()
      reads this
      ensures r == def.GetOr(Null)
    {
      Lookup(json, store, key, def.GetOr(Null))
    }
  }

  /** Writing a value and reading it back: the corrected store returns the value, the
      store as written throws on the write and returns null. */
  method SetThenGet(json: Json) returns (asWritten: Value, thrown: Option<Exception>, corrected: Value)
    requires RoundTrips(json, Number(1))
    ensures thrown == Some(MissingMethod) && asWritten == Null
    ensures corrected == Number(1)
  {
    var s := new SrcMemoryStore(json);
    thrown := s.Set("a", Number(1), None);
    asWritten := s.Get("a", None);
    var d := new MemoryStore(json);
    d.Set("a", Number(1), None);
    WriteThenLookup(json, map[], "a", Number(1), true, Null);
    corrected := d.Get("a", None);
  }
}
