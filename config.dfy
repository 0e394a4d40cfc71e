/**
 * The framework's configuration repository as this provider sees it: a store
 * from dotted keys to values, read with a default and written one key at a time.
 * Dotted keys are treated as flat names.
 */
module Config {
  import opened Php

  /** `Config::get($key, $default)`: the stored value (even `null`), or the default when the key is missing. */
  function Lookup(items: map<string, Value>, key: string, default: Value): (r: Value)
    ensures key in items ==> r == items[key]
    ensures key !in items ==> r == default
  {
    if key in items then items[key] else default
  }

  /** The key holds the same value in both stores, or is missing from both. */
  predicate SameAt(before: map<string, Value>, after: map<string, Value>, key: string): (r: bool)
  {
    (key in before <==> key in after) && (key in before ==> before[key] == after[key])
  }

  /** The shared, process-wide configuration store. */
  class Repository {
    var items: map<string, Value>

    constructor (initial: map<string, Value>)
      ensures items == initial
    {
      items := initial;
    }

    /** `Config::get($key, $default)` on the current store. */
    function Get(key: string, default: Value): (r: Value)
      reads this
      ensures key in items ==> r == items[key]
      ensures key !in items ==> r == default
    {
      Lookup(items, key, default)
    }

    /** `Config::set($key, $value)`: that key now holds the value; no other key changes. */
    method Set(key: string, value: Value)
      modifies this
      ensures key in items && items[key] == value
      ensures forall k :: k != key ==> SameAt(old(items), items, k)
      ensures items == old(items)[key := value]
    {
      items := items[key := value];
    }
  }
}
