/** `src/counter.rs`: counts how often each value was seen under each key. */
module Counter {
  import opened Wrappers

  /** `v` occurs in `seen` and no value occurs in it more often. */
  ghost predicate IsMostCommon<V(!new)>(seen: seq<V>, v: V)
  {
    multiset(seen)[v] > 0 && forall w :: multiset(seen)[w] <= multiset(seen)[v]
  }

  /** `Counter<K, V>`: for every key, a table from value to the number of times it was inserted. */
  class Counter<K(==,!new), V(==,!new)> {
    var items: map<K, map<V, nat>>

    /** Every key present was inserted at least once, and every count present is positive. */
    ghost predicate Valid()
      reads this
    {
      forall k :: k in items ==> items[k] != map[] && forall v :: v in items[k] ==> items[k][v] > 0
    }

    /** How many times `v` was inserted under `k`. */
    function Count(k: K, v: V): nat
      reads this
    {
      if k in items && v in items[k] then items[k][v] else 0
    }

    /** `Counter::default`: nothing counted. */
    constructor ()
      ensures Valid() && items == map[]
    {
      items := map[];
    }

    /** `insert`: one more sighting of `value` under `key`; every other count stays as it was. */
    method Insert(key: K, value: V)
      requires Valid()
      modifies this
      ensures Valid()
      ensures Count(key, value) == old(Count(key, value)) + 1
      ensures forall k, v :: (k != key || v != value) ==> Count(k, v) == old(Count(k, v))
      ensures items.Keys == old(items.Keys) + {key}
    {
      var keyMap := if key in items then items[key] else map[];
      var n := if value in keyMap then keyMap[value] else 0;
      items := items[key := keyMap[value := n + 1]];
    }

    /**
     * `most_common`: nothing for a key never inserted; otherwise a value whose count under the
     * key is the largest. Among equally frequent values the choice is arbitrary, as the source's
     * `HashMap` iteration order is.
     */
    method MostCommon(key: K) returns (r: Option<V>)
      requires Valid()
      ensures r.None? <==> key !in items
      ensures r.Some? ==> Count(key, r.value) > 0 && forall w :: Count(key, w) <= Count(key, r.value)
    {
      if key !in items {
        return None;
      }
      var keyMap := items[key];
      var pending := keyMap.Keys;
      var best: Option<V> := None;
      var bestCount := 0;
      while pending != {}
        invariant pending <= keyMap.Keys
        invariant best.None? <==> pending == keyMap.Keys
        invariant best.Some? ==> best.value in keyMap && keyMap[best.value] == bestCount
        invariant forall w :: w in keyMap && w !in pending ==> keyMap[w] <= bestCount
        decreases pending
      {
        var v :| v in pending;
        if best.None? || keyMap[v] >= bestCount {
          best, bestCount := Some(v), keyMap[v];
        }
        pending := pending - {v};
      }
      r := best;
    }
  }

  /**
   * Two insertions of one value and one of another under a key: `most_common` answers the value
   * inserted twice, whatever order the table is walked in.
   */
  method TwiceBeatsOnce<K(==,!new), V(==,!new)>(key: K, a: V, b: V) returns (r: Option<V>)
    requires a != b
    ensures r == Some(a)
  {
    var counter := new Counter();
    counter.Insert(key, a);
    counter.Insert(key, b);
    counter.Insert(key, a);
    r := counter.MostCommon(key);
    assert counter.Count(key, a) == 2 && counter.Count(key, b) == 1;
  }
}
