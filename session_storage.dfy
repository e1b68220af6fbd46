/** The `useSessionStorage` hook: a React state value mirrored into the
    browser's `sessionStorage` under one key, JSON-encoded.

    JSON itself is abstract here: a `Codec` is a pair of functions, `encode`
    standing for `JSON.stringify` and `decode` for `JSON.parse`, which may fail.
    What the hook reads back is either the decoded value or, when decoding
    fails, the raw stored string, so the hook's value ranges over `Value<V>`. */
module SessionStorage {
  import opened Entries

  /** A JavaScript value as the hook holds it: an object of the hook's type, or a string. */
  datatype Value<V> = Obj(obj: V) | Text(text: string)

  /** `JSON.stringify` and `JSON.parse`; `decode` returns `None` where `JSON.parse` throws. */
  datatype Codec<!V> = Codec(encode: Value<V> -> string, decode: string -> Option<Value<V>>)

  /** What the hook relies on of JSON: parsing a stringified value gives it back, and a
      stringified value is never the empty string (`JSON.stringify("")` is `'""'`). */
  ghost predicate Sound<V(!new)>(c: Codec<V>) {
    forall x: Value<V> :: c.decode(c.encode(x)) == Some(x) && c.encode(x) != ""
  }

  /** `getValueFromSessionStorage(key, defaultValue)` against the store's contents.
      `getItem(key) || defaultValue` replaces a missing item (`null`) and the empty
      string by the default; `JSON.parse` of an object default throws (it parses the
      text `"[object Object]"`), and the `catch` falls through to `return storedValue`, so
      the default comes back as it is. A stored string that does not parse comes back raw. */
  function Read<V>(items: map<string, string>, key: string, default: V, c: Codec<V>): (v: Value<V>)
    ensures key !in items || items[key] == "" ==> v == Obj(default)
    ensures key in items && items[key] != "" ==>
      c.decode(items[key]) == Some(v) || (c.decode(items[key]) == None && v == Text(items[key]))
  {
    if key !in items || items[key] == "" then Obj(default)
    else match c.decode(items[key])
      case Some(x) => x
      case None => Text(items[key])
  }

  /** `saveValueToSessionStorage(key, value)` against the store's contents. */
  function Save<V>(items: map<string, string>, key: string, x: Value<V>, c: Codec<V>): (r: map<string, string>)
    ensures key in r && r[key] == c.encode(x)
    ensures forall k :: k in r <==> k == key || k in items
    ensures forall k :: k in items && k != key ==> r[k] == items[k]
  {
    items[key := c.encode(x)]
  }

  /** The two JavaScript values compared by the guard `typeof sessionStorage === undefined`. */
  datatype JsPrimitive = Undefined | JsString(s: string)

  /** The guard at the head of both helpers: `typeof` always yields a string (`"object"`,
      or `"undefined"` when the global is missing), which `===` compares with the value `undefined`. */
  predicate StorageGuard(typeofStorage: string) {
    JsString(typeofStorage) == Undefined
  }

  /** The guard never holds, so neither helper ever short-circuits through it; the
      methods below therefore have no such branch. */
  lemma StorageGuardNeverHolds(typeofStorage: string)
    ensures !StorageGuard(typeofStorage)
  {
  }

  /** Reading a key that is absent, or holds the empty string, gives the default. */
  lemma ReadMissingIsDefault<V>(items: map<string, string>, key: string, default: V, c: Codec<V>)
    requires key !in items || items[key] == ""
    ensures Read(items, key, default, c) == Obj(default)
  {
  }

  /** A stored string that fails to decode is returned raw, not replaced by the default. */
  lemma ReadUndecodableIsRaw<V>(items: map<string, string>, key: string, default: V, c: Codec<V>)
    requires key in items && items[key] != "" && c.decode(items[key]) == None
    ensures Read(items, key, default, c) == Text(items[key])
  {
  }

  /** Saving then reading the same key gives back the saved value, whatever was there before. */
  lemma ReadAfterSave<V(!new)>(items: map<string, string>, key: string, x: Value<V>, default: V, c: Codec<V>)
    requires Sound(c)
    ensures Read(Save(items, key, x, c), key, default, c) == x
  {
  }

  /** Saving touches no other key. */
  lemma SaveLeavesOtherKeys<V>(items: map<string, string>, key: string, other: string, x: Value<V>, default: V, c: Codec<V>)
    requires other != key
    ensures other in Save(items, key, x, c) <==> other in items
    ensures other in items ==> Save(items, key, x, c)[other] == items[other]
    ensures Read(Save(items, key, x, c), other, default, c) == Read(items, other, default, c)
  {
  }

  /** After `sessionStorage.clear()` every key reads as its default. */
  lemma ReadAfterClear<V>(key: string, default: V, c: Codec<V>)
    ensures Read(map[], key, default, c) == Obj(default)
  {
  }

  /** Saving what was just read back under the same key changes nothing a later read can
      see: the first run of the save effect after a mount is harmless. */
  lemma SaveOfReadIsInvisible<V(!new)>(items: map<string, string>, key: string, other: string, default: V, c: Codec<V>)
    requires Sound(c)
    ensures Read(Save(items, key, Read(items, key, default, c), c), other, default, c) == Read(items, other, default, c)
  {
  }

  /** When a hook's key changes without its value being re-read (`SessionState.SetKey`),
      the entry stored under the new key is replaced by the old key's value. */
  lemma StaleKeyChangeLosesEntry<V(!new)>(items: map<string, string>, oldKey: string, newKey: string, default: V, c: Codec<V>)
    requires Sound(c)
    requires Read(items, oldKey, default, c) != Read(items, newKey, default, c)
    ensures var after := Save(items, newKey, Read(items, oldKey, default, c), c);
      Read(after, newKey, default, c) == Read(items, oldKey, default, c) &&
      Read(after, newKey, default, c) != Read(items, newKey, default, c)
  {
  }

  /** The browser's `sessionStorage`: one string-to-string store shared by every hook. */
  class Store {
    var items: map<string, string>

    constructor(initial: map<string, string>)
      ensures items == initial
    {
      items := initial;
    }

    /** `sessionStorage.getItem(key)`; `None` is its `null`. */
    method GetItem(key: string) returns (r: Option<string>)
      ensures key in items ==> r == Some(items[key])
      ensures key !in items ==> r == None
    {
      r := if key in items then Some(items[key]) else None;
    }

    /** `sessionStorage.setItem(key, s)`. */
    method SetItem(key: string, s: string)
      modifies this
      ensures items == old(items)[key := s]
    {
      items := items[key := s];
    }

    /** `sessionStorage.clear()`. */
    method Clear()
      modifies this
      ensures items == map[]
    {
      items := map[];
    }
  }

  /** `getValueFromSessionStorage`: reads the store, never changes it. */
  method GetValueFromSessionStorage<V>(store: Store, key: string, default: V, c: Codec<V>) returns (r: Value<V>)
    ensures r == Read(store.items, key, default, c)
  {
    var stored := store.GetItem(key);
    if stored == None || stored.value == "" {
      return Obj(default);
    }
    var parsed := c.decode(stored.value);
    match parsed
    case Some(x) => r := x;
    case None => r := Text(stored.value);
  }

  /** `saveValueToSessionStorage`: overwrites the one key with the encoding of the value. */
  method SaveValueToSessionStorage<V>(store: Store, key: string, x: Value<V>, c: Codec<V>)
    modifies store
    ensures store.items == Save(old(store.items), key, x, c)
  {
    store.SetItem(key, c.encode(x));
  }

  /** One mounted `useSessionStorage(key, defaultValue)`: its React state `value`, the
      current `key`, and the store it mirrors the value into. Several hooks may share a
      store and a key; each keeps its own `value`. */
  class SessionState<V> {
    const store: Store
    const codec: Codec<V>
    const default: V
    var key: string
    var value: Value<V>

    /** Mount: the initial state is one read of the store, and the save effect then runs
        once with that value. */
    constructor(store: Store, key: string, default: V, codec: Codec<V>)
      modifies store
      ensures this.store == store && this.codec == codec && this.default == default
      ensures this.key == key
      ensures value == Read(old(store.items), key, default, codec)
      ensures store.items == Save(old(store.items), key, value, codec)
    {
      this.store := store;
      this.codec := codec;
      this.default := default;
      this.key := key;
      var v := GetValueFromSessionStorage(store, key, default, codec);
      this.value := v;
      new;
      SaveValueToSessionStorage(store, key, value, codec);
    }

    /** `setValue(x)` followed by the save effect, which fires because the value changed. */
    method SetValue(x: Value<V>)
      modifies this, store
      ensures value == x && key == old(key)
      ensures store.items == Save(old(store.items), key, x, codec)
    {
      value := x;
      SaveValueToSessionStorage(store, key, value, codec);
    }

    /** A re-render with a different `key` argument, as the hook is written: the state is not
        re-initialised (`useState` uses its argument only at mount), and the save effect, whose
        dependencies include `key`, writes the current value under the new key. */
    method SetKey(k: string)
      modifies this, store
      ensures key == k && value == old(value)
      ensures store.items == if k == old(key) then old(store.items) else Save(old(store.items), k, old(value), codec)
    {
      if k != key {
        key := k;
        SaveValueToSessionStorage(store, key, value, codec);
      }
    }

    /** A re-render with a different `key` that first re-reads the value stored under the new
        key, as a mount would; the save effect then writes back what was read, so what any key
        reads as is unchanged (`SaveOfReadIsInvisible`). */
    method SetKeyReloading(k: string)
      modifies this, store
      ensures key == k
      ensures value == if k == old(key) then old(value) else Read(old(store.items), k, default, codec)
      ensures store.items == if k == old(key) then old(store.items) else Save(old(store.items), k, value, codec)
    {
      if k != key {
        key := k;
        var v := GetValueFromSessionStorage(store, k, default, codec);
        value := v;
        SaveValueToSessionStorage(store, key, value, codec);
      }
    }

    /** `clearSessionStorage`: empties the whole store, every key and not just this hook's. */
    method ClearSessionStorage()
      modifies store
      ensures store.items == map[]
    {
      store.Clear();
    }
  }
}
