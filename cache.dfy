/**
 * The recommender's two process-wide caches (`geocode_cache`, `poi_cache`):
 * Python dicts whose insertion order doubles as the eviction order. When an
 * insert finds the dict at its cap, the oldest key is deleted first, then the
 * new entry is written (an existing key keeps its position).
 */
module Cache {
  import opened Common

  const GEOCODE_CACHE_MAX: nat := 30
  const POI_CACHE_MAX: nat := 15

  /** The keys that survive the eviction step of an insert. */
  function Survivors<K>(order: seq<K>, capacity: nat): seq<K> {
    if |order| >= capacity && order != [] then order[1..] else order
  }

  /** The key order after inserting `key`: eviction of the oldest key when full, then append if new. */
  function OrderAfterPut<K(==)>(order: seq<K>, capacity: nat, key: K): seq<K> {
    var kept := Survivors(order, capacity);
    if key in kept then kept else kept + [key]
  }

  /** The entries after inserting `key`: the oldest entry goes when full, then `key` maps to `value`. */
  function EntriesAfterPut<K(!new), V>(entries: map<K, V>, order: seq<K>, capacity: nat, key: K, value: V): (m: map<K, V>)
    ensures key in m && m[key] == value
    ensures forall k :: k in m <==> k == key || (k in entries && !(|order| >= capacity && order != [] && k == order[0]))
  {
    (if |order| >= capacity && order != [] then entries - {order[0]} else entries)[key := value]
  }

  /** An insert into a cache within its cap leaves it within its cap, with no key twice. */
  lemma PutKeepsBound<K>(order: seq<K>, capacity: nat, key: K)
    requires 0 < capacity && |order| <= capacity && Distinct(order)
    ensures var o := OrderAfterPut(order, capacity, key);
      |o| <= capacity && Distinct(o) && key in o
  {
    var kept := Survivors(order, capacity);
    assert |kept| < capacity || key in kept;
  }

  /** The only key an insert can lose is the oldest one, and only when the cache is full. */
  lemma PutEvictsOnlyOldest<K>(order: seq<K>, capacity: nat, key: K, k: K)
    requires k in order && k !in OrderAfterPut(order, capacity, key)
    ensures |order| >= capacity && k == order[0] && k != key
  {
  }

  /** In a full cache that does not hold `key`, the insert drops the oldest key and appends `key`. */
  lemma FullPutShifts<K>(order: seq<K>, capacity: nat, key: K)
    requires 0 < capacity == |order| && Distinct(order) && key !in order
    ensures OrderAfterPut(order, capacity, key) == order[1..] + [key]
    ensures |OrderAfterPut(order, capacity, key)| == capacity
  {
    assert key !in order[1..];
  }

  class FifoCache<K(==,!new), V> {
    const capacity: nat
    /** Keys, oldest first (the dict's iteration order). */
    var order: seq<K>
    var entries: map<K, V>

    ghost predicate Valid()
      reads this
    {
      && 0 < capacity
      && |order| <= capacity
      && Distinct(order)
      && (forall k :: k in entries <==> k in order)
    }

    constructor (capacity: nat)
      requires 0 < capacity
      ensures Valid() && this.capacity == capacity
      ensures order == [] && entries == map[]
    {
      this.capacity := capacity;
      order := [];
      entries := map[];
    }

    /** Lookup; a hit returns the stored value and changes nothing. */
    method Get(key: K) returns (r: Option<V>)
      ensures key in entries ==> r == Some(entries[key])
      ensures key !in entries ==> r == None
    {
      if key in entries {
        r := Some(entries[key]);
      } else {
        r := None;
      }
    }

    /** `if len(cache) >= MAX: del cache[next(iter(cache))]` followed by `cache[key] = value`. */
    method Put(key: K, value: V)
      requires Valid()
      modifies this
      ensures Valid()
      ensures order == OrderAfterPut(old(order), capacity, key)
      ensures entries == EntriesAfterPut(old(entries), old(order), capacity, key, value)
      ensures |order| <= capacity && key in order
    {
      PutKeepsBound(order, capacity, key);
      if |order| >= capacity {
        var oldest := order[0];
        entries := entries - {oldest};
        order := order[1..];
      }
      if key !in order {
        order := order + [key];
      }
      entries := entries[key := value];
    }
  }
}
