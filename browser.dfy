/** `window.localStorage` of one origin. */
module Browser {
  import opened Base

  type Store = map<string, string>

  /** `localStorage.getItem(key)`: `null` when the key is absent. */
  function Get(store: Store, key: string): Option<string> {
    if key in store then Some(store[key]) else None
  }

  /** JavaScript truthiness of a stored string or `null`: the empty string is falsy too. */
  predicate Truthy(v: Option<string>) {
    v.Some? && v.value != ""
  }

  /** `getItem(key) || fallback`. */
  function GetOr(store: Store, key: string, fallback: string): string {
    if Truthy(Get(store, key)) then store[key] else fallback
  }

  /** `getItem` after `setItem`: the written key reads back the value, every other key reads as before. */
  lemma ReadAfterSet(store: Store, key: string, value: string, other: string)
    ensures Get(store[key := value], key) == Some(value)
    ensures other != key ==> Get(store[key := value], other) == Get(store, other)
    ensures GetOr(store[key := value], key, "") == value
  {
  }

  /** `getItem` after `removeItem`: the removed key reads as `null`, every other key reads as before. */
  lemma ReadAfterRemove(store: Store, key: string, other: string, fallback: string)
    ensures Get(store - {key}, key) == None
    ensures GetOr(store - {key}, key, fallback) == fallback
    ensures other != key ==> Get(store - {key}, other) == Get(store, other)
  {
  }

  /** One origin's localStorage. Several frames of the same origin share one object. */
  class Storage {
    var items: Store

    constructor (initial: Store)
      ensures items == initial
    {
      items := initial;
    }

    /** `localStorage.setItem(key, value)`. */
    method SetItem(key: string, value: string)
      modifies this
      ensures items == old(items)[key := value]
    {
      items := items[key := value];
    }

    /** `localStorage.removeItem(key)`; removing an absent key changes nothing. */
    method RemoveItem(key: string)
      modifies this
      ensures items == old(items) - {key}
    {
      items := items - {key};
    }
  }
}
