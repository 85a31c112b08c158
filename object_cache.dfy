/**
 * The process-wide object cache of lib/cache.js: a list of objects searched
 * by constructor and by a deep-equal `cacheKey`. A Bundle stores its options
 * as its `cacheKey` so that the cache can find it again.
 */
module ObjectCache {
  import opened Wrappers
  import FirstMatch

  /** The name of a constructor function, such as `Bundle` or `WatchedBundle`. */
  type Constructor = string

  /**
   * An object held by the cache. `prototypeChain` lists every constructor the
   * object is an `instanceof` (a WatchedBundle lists both WatchedBundle and
   * Bundle); `identity` tells apart objects whose other parts are equal.
   */
  datatype CachedObject<K> = CachedObject(prototypeChain: seq<Constructor>, cacheKey: K, identity: nat)

  /** `obj instanceof func`. */
  predicate InstanceOf<K>(obj: CachedObject<K>, func: Constructor)
  {
    func in obj.prototypeChain
  }

  /** The predicate `find` hands to `_.find`; deep equality of keys is equality of key values. */
  predicate Hit<K(==)>(obj: CachedObject<K>, func: Constructor, key: K)
    ensures !InstanceOf(obj, func) ==> !Hit(obj, func, key)
    ensures InstanceOf(obj, func) ==> (Hit(obj, func, key) <==> key == obj.cacheKey)
  {
    InstanceOf(obj, func) && obj.cacheKey == key
  }

  /** The search `find(func, opts)` performs over the cached objects, oldest first. */
  function Lookup<K(==)>(entries: seq<CachedObject<K>>, func: Constructor, key: K): (r: Option<CachedObject<K>>)
    ensures r.Some? ==> InstanceOf(r.value, func) && r.value.cacheKey == key
    ensures r.Some? ==> exists i :: 0 <= i < |entries| && entries[i] == r.value &&
                                    forall j :: 0 <= j < i ==> !Hit(entries[j], func, key)
    ensures r.None? <==> forall i :: 0 <= i < |entries| ==> !Hit(entries[i], func, key)
  {
    FirstMatch.Find(entries, (o: CachedObject<K>) => Hit(o, func, key))
  }

  /** An object whose key is equal but which is not an instance of `func` is never returned. */
  lemma LookupRespectsType<K>(entries: seq<CachedObject<K>>, func: Constructor, key: K, obj: CachedObject<K>)
    requires obj.cacheKey == key && !InstanceOf(obj, func)
    ensures Lookup(entries + [obj], func, key) == Lookup(entries, func, key)
  {
    LookupAfterAdd(entries, obj, func, key);
  }

  /**
   * Adding an object keeps every earlier answer; a query that found nothing
   * before finds the new object exactly when it is a hit.
   */
  lemma LookupAfterAdd<K>(entries: seq<CachedObject<K>>, obj: CachedObject<K>, func: Constructor, key: K)
    ensures Lookup(entries + [obj], func, key) ==
      if Lookup(entries, func, key).Some? then Lookup(entries, func, key)
      else if Hit(obj, func, key) then Some(obj)
      else None
  {
    var p := (o: CachedObject<K>) => Hit(o, func, key);
    FirstMatch.FirstIndexAppend(entries, obj, p);
    var t := entries + [obj];
    assert forall j :: 0 <= j < |entries| ==> t[j] == entries[j];
  }

  /** The mutable store: `_cache` and the methods that change it. */
  class Cache<K(==)> {
    var entries: seq<CachedObject<K>>

    /** The module starts with an empty `_cache`. */
    constructor ()
      ensures entries == []
    {
      entries := [];
    }

    /** `find(func, opts)`. */
    function Find(func: Constructor, key: K): (r: Option<CachedObject<K>>)
      reads this
      ensures r.Some? ==> exists i :: 0 <= i < |entries| && entries[i] == r.value && Hit(r.value, func, key) &&
                                      forall j :: 0 <= j < i ==> !Hit(entries[j], func, key)
      ensures r.None? <==> forall i :: 0 <= i < |entries| ==> !Hit(entries[i], func, key)
    {
      Lookup(entries, func, key)
    }

    /** `add(obj)`: push at the end. */
    method Add(obj: CachedObject<K>)
      modifies this
      ensures entries == old(entries) + [obj]
    {
      entries := entries + [obj];
    }

    /** `clear()`: replace `_cache` by an empty list. */
    method Clear()
      modifies this
      ensures entries == []
      ensures forall func, key :: Find(func, key) == None
    {
      entries := [];
    }
  }
}
