/**
  `cache_result`: a per-object result cache keyed by the decorated method's name. The
  `_cache` dictionary is the `entries` field of a `ResultCache`; `Call` is the wrapper
  the decorator puts around a method.
 */
module CacheDecorator {
  import opened Wrappers

  /** Keys are only added, and a stored value never changes. */
  ghost predicate Extends<V>(before: map<string, V>, after: map<string, V>) {
    forall k :: k in before ==> k in after && after[k] == before[k]
  }

  /**
    What one wrapped call leaves behind: `key` is stored with the result, nothing stored
    earlier changed, and a call that found `key` already stored added nothing at all.
   */
  ghost predicate Memoised<V>(before: map<string, V>, after: map<string, V>, key: string, r: V) {
    Extends(before, after) && key in after && after[key] == r &&
    (key in before ==> after == before)
  }

  class ResultCache<V> {
    /** `self._cache`: method name to result. */
    var entries: map<string, V>

    /** `self._cache = {}`. */
    constructor()
      ensures entries == map[]
    {
      entries := map[];
    }

    /** `if key in self._cache: return self._cache[key]`. */
    method Lookup(key: string) returns (hit: Option<V>)
      ensures hit.Some? <==> key in entries
      ensures hit.Some? ==> hit.value == entries[key]
    {
      if key in entries {
        return Some(entries[key]);
      }
      return None;
    }

    /** `self._cache[key] = result`. */
    method Store(key: string, result: V)
      modifies this
      ensures entries == old(entries)[key := result]
    {
      entries := entries[key := result];
    }

    /**
      The wrapper: a stored result is returned without running `body`; otherwise `body`
      runs on the arguments and its result is stored under `key` and returned. The key is
      the method name alone, so the arguments play no part in the lookup.
     */
    method Call<A>(key: string, args: A, body: A -> V) returns (r: V)
      modifies this
      ensures old(key in entries) ==> r == old(entries[key]) && entries == old(entries)
      ensures old(key !in entries) ==> r == body(args) && entries == old(entries)[key := r]
      ensures Memoised(old(entries), entries, key, r)
    {
      var hit := Lookup(key);
      if hit.Some? {
        return hit.value;
      }
      r := body(args);
      Store(key, r);
    }
  }

  /**
    Two calls under one name: the second returns what the first returned, whatever its
    arguments, and leaves the cache as the first call left it.
   */
  method CallTwice<A, V>(cache: ResultCache<V>, key: string, first: A, second: A, body: A -> V)
    returns (r1: V, r2: V)
    modifies cache
    ensures r1 == r2
    ensures r1 == if key in old(cache.entries) then old(cache.entries[key]) else body(first)
    ensures Memoised(old(cache.entries), cache.entries, key, r1)
  {
    r1 := cache.Call(key, first, body);
    ghost var afterFirst := cache.entries;
    r2 := cache.Call(key, second, body);
    assert cache.entries == afterFirst;
  }

  /** A fresh cache runs the body on the first call and never again. */
  method FirstCallComputes<A, V>(key: string, first: A, second: A, body: A -> V) returns (r1: V, r2: V)
    ensures r1 == body(first) && r2 == body(first)
  {
    var cache := new ResultCache<V>();
    r1, r2 := CallTwice(cache, key, first, second, body);
  }
}
