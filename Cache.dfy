/**
 * The generic get-or-generate cache of branches/cache/src/Cache.h.
 *
 * The generator is a deterministic function fixed at construction; the map
 * `store` plays the part of `m_map`. The invariant Valid() says every stored
 * value is what the generator gives for its key, which is why two lookups of
 * the same key always agree.
 */
module Caches {

  class Cache<K(==), V> {
    const generator: K -> V
    var store: map<K, V>

    ghost predicate Valid()
      reads this
    {
      forall k :: k in store ==> store[k] == generator(k)
    }

    /** Cache(GeneratorFunction fn): an empty map and the given generator. */
    constructor(fn: K -> V)
      ensures generator == fn && store == map[]
      ensures Valid()
    {
      generator := fn;
      store := map[];
    }

    /**
     * Cache::get. A hit returns the stored value and leaves the map alone;
     * a miss calls the generator once, stores its result under the key and
     * returns it. Either way the key is present afterwards and no key is
     * removed or changed.
     */
    method Get(key: K) returns (v: V)
      requires Valid()
      modifies this
      ensures Valid()
      ensures key in old(store) ==> v == old(store)[key] && store == old(store)
      ensures key !in old(store) ==> v == generator(key) && store == old(store)[key := v]
      ensures key in store && store[key] == v
      ensures v == generator(key)
      ensures forall k :: k in old(store) ==> k in store && store[k] == old(store)[k]
      ensures store.Keys == old(store).Keys + {key}
    {
      if key in store {
        v := store[key];
        return;
      }
      v := generator(key);
      store := store[key := v];
    }
  }
}
