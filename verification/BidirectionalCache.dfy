/** A relation kept in both directions (`pkg/controllers/follower/bidirectional_cache.go`). */
module BidirectionalCache {

  function At<K, V>(m: map<K, set<V>>, k: K): set<V> {
    if k in m then m[k] else {}
  }

  /** `m` with the set of `k` replaced; an empty set is not kept. */
  function Put<K, V>(m: map<K, set<V>>, k: K, values: set<V>): map<K, set<V>> {
    if values == {} then m - {k} else m[k := values]
  }

  /** Both maps hold the same pairs. */
  ghost predicate Mirrored<K(!new), V(!new)>(forward: map<K, set<V>>, backward: map<V, set<K>>) {
    forall k, v :: v in At(forward, k) <==> k in At(backward, v)
  }

  ghost predicate NoEmptySet<K(!new), V>(m: map<K, set<V>>) {
    forall k :: k in m ==> m[k] != {}
  }

  /** Taking `key` away from what it lost and adding it to what it gained keeps the maps mirrored. */
  lemma MirroredAfterUpdate<K(!new), V(!new)>(
      f0: map<K, set<V>>, b0: map<V, set<K>>, f1: map<K, set<V>>, b1: map<V, set<K>>, key: K, values: set<V>)
    requires Mirrored(f0, b0)
    requires At(f1, key) == values && forall k :: k != key ==> At(f1, k) == At(f0, k)
    requires forall v :: At(b1, v) == if v in values then At(b0, v) + {key} else At(b0, v) - {key}
    ensures Mirrored(f1, b1)
  {
    forall k, v ensures v in At(f1, k) <==> k in At(b1, v) {
      assert v in At(f0, k) <==> k in At(b0, v);
    }
  }

  class Cache<V1(==,!new), V2(==,!new)> {
    /** All updates go through `cache`; `reverseCache` is its converse. */
    var cache: map<V1, set<V2>>
    var reverseCache: map<V2, set<V1>>

    /** The two maps hold the same pairs and neither keeps an empty set. */
    ghost predicate Valid()
      reads this
    {
      Mirrored(cache, reverseCache) && NoEmptySet(cache) && NoEmptySet(reverseCache)
    }

    constructor ()
      ensures Valid() && cache == map[] && reverseCache == map[]
    {
      cache, reverseCache := map[], map[];
    }

    method Lookup(key: V1) returns (values: set<V2>)
      ensures forall v :: v in values <==> key in cache && v in cache[key]
      ensures Valid() ==> forall v :: v in values <==> key in At(reverseCache, v)
    {
      values := At(cache, key);
    }

    method ReverseLookup(key: V2) returns (keys: set<V1>)
      requires Valid()
      ensures forall k :: k in keys <==> key in At(cache, k)
    {
      keys := At(reverseCache, key);
    }

    method Update(key: V1, newValues: set<V2>)
      requires Valid()
      modifies this
      ensures Valid()
      ensures cache == Put(old(cache), key, newValues)
    {
      var oldValues := At(cache, key);
      if newValues != {} {
        cache := cache[key := newValues];
      } else {
        cache := cache - {key};
      }
      RemoveReferences(key, oldValues - newValues);
      AddReferences(key, newValues - oldValues);
      forall v ensures At(reverseCache, v) == if v in newValues then old(At(reverseCache, v)) + {key}
          else old(At(reverseCache, v)) - {key}
      {
        assert v in oldValues <==> key in old(At(reverseCache, v));
      }
      MirroredAfterUpdate(old(cache), old(reverseCache), cache, reverseCache, key, newValues);
    }

    /** The first loop of Update. */
    method RemoveReferences(key: V1, staleValues: set<V2>)
      requires NoEmptySet(reverseCache)
      modifies this`reverseCache
      ensures NoEmptySet(reverseCache)
      ensures forall v :: At(reverseCache, v) == if v in staleValues then old(At(reverseCache, v)) - {key}
          else old(At(reverseCache, v))
    {
      var stale := staleValues;
      while stale != {}
        invariant stale <= staleValues
        invariant NoEmptySet(reverseCache)
        invariant forall v :: At(reverseCache, v) ==
                                (if v in staleValues - stale then old(At(reverseCache, v)) - {key}
                                    else old(At(reverseCache, v)))
        decreases stale
      {
        var value :| value in stale;
        stale := stale - {value};
        if value in reverseCache {
          var keySet := reverseCache[value] - {key};
          if keySet == {} {
            reverseCache := reverseCache - {value};
          } else {
            reverseCache := reverseCache[value := keySet];
          }
        }
      }
    }

    /** The second loop of Update. */
    method AddReferences(key: V1, addedValues: set<V2>)
      requires NoEmptySet(reverseCache)
      modifies this`reverseCache
      ensures NoEmptySet(reverseCache)
      ensures forall v :: At(reverseCache, v) == if v in addedValues then old(At(reverseCache, v)) + {key}
          else old(At(reverseCache, v))
    {
      var added := addedValues;
      while added != {}
        invariant added <= addedValues
        invariant NoEmptySet(reverseCache)
        invariant forall v :: At(reverseCache, v) ==
                                (if v in addedValues - added then old(At(reverseCache, v)) + {key}
                                    else old(At(reverseCache, v)))
        decreases added
      {
        var value :| value in added;
        added := added - {value};
        var keySet := At(reverseCache, value) + {key};
        assert key in keySet;
        reverseCache := reverseCache[value := keySet];
      }
    }
  }
}
