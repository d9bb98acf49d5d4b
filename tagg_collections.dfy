/**
 * The two collection classes of `tagg.py`: `DefaultOrderedDict`, an insertion-ordered dictionary
 * that stores a fresh default for a key that is read before it is set, and `Counter`, which keeps
 * one `collections.Counter` of values per key and answers a key with its most common value.
 */
module PyCollections {
  import opened Wrappers

  /** A Python dictionary as a value: its keys in insertion order and what each maps to. */
  datatype OrderedMap<K, V> = OrderedMap(keys: seq<K>, entries: map<K, V>)

  /** Each key is listed once, and the listed keys are exactly the mapped ones. */
  ghost predicate WellFormed<K(!new), V>(m: OrderedMap<K, V>)
  {
    && (forall i, j :: 0 <= i < j < |m.keys| ==> m.keys[i] != m.keys[j])
    && (forall k :: k in m.entries <==> k in m.keys)
  }

  /** The empty dictionary. */
  function Empty<K(!new), V>(): (m: OrderedMap<K, V>)
    ensures WellFormed(m) && m.keys == []
  {
    OrderedMap([], map[])
  }

  /** `d[k] = v`: a new key goes last, an existing key keeps its place and takes the new value. */
  function Put<K, V>(m: OrderedMap<K, V>, k: K, v: V): (r: OrderedMap<K, V>)
  {
    OrderedMap(if k in m.entries then m.keys else m.keys + [k], m.entries[k := v])
  }

  /**
   * Assignment keeps the dictionary well formed; it maps `k` to `v` and leaves every other key's
   * value alone; the order of the keys already present does not change, and a new key is appended.
   */
  lemma PutKeepsOrder<K(!new), V>(m: OrderedMap<K, V>, k: K, v: V)
    requires WellFormed(m)
    ensures var r := Put(m, k, v);
      && WellFormed(r)
      && k in r.entries && r.entries[k] == v
      && (forall j :: j != k && j in m.entries ==> j in r.entries && r.entries[j] == m.entries[j])
      && r.keys[..|m.keys|] == m.keys
      && (k in m.entries ==> r.keys == m.keys)
      && (k !in m.entries ==> r.keys == m.keys + [k])
  {
    var r := Put(m, k, v);
    if k !in m.entries {
      assert r.keys[..|m.keys|] == m.keys;
      forall i, j | 0 <= i < j < |r.keys|
        ensures r.keys[i] != r.keys[j]
      {
        if j == |m.keys| {
          assert r.keys[i] == m.keys[i];
        }
      }
    }
  }

  /** Assigning the same key twice is the same as assigning the second value only. */
  lemma PutTwice<K, V>(m: OrderedMap<K, V>, k: K, a: V, b: V)
    ensures Put(Put(m, k, a), k, b) == Put(m, k, b)
  {
  }

  /** What `DefaultOrderedDict.__getitem__` returns: the stored value, or the factory's fresh one. */
  function ValueAt<K, V>(m: OrderedMap<K, V>, k: K, default: V): V
  {
    if k in m.entries then m.entries[k] else default
  }

  /** The dictionary after `DefaultOrderedDict.__getitem__`: a missing key is stored with the default. */
  function Touched<K, V>(m: OrderedMap<K, V>, k: K, default: V): OrderedMap<K, V>
  {
    if k in m.entries then m else Put(m, k, default)
  }

  /**
   * Reading a key never loses anything: a present key leaves the dictionary as it was; a missing
   * one becomes the last key, mapped to the default, which is also what the read returns.
   */
  lemma TouchedAddsDefault<K(!new), V>(m: OrderedMap<K, V>, k: K, default: V)
    requires WellFormed(m)
    ensures var r := Touched(m, k, default);
      && WellFormed(r)
      && k in r.entries && r.entries[k] == ValueAt(m, k, default)
      && (k in m.entries ==> r == m)
      && (k !in m.entries ==> r.keys == m.keys + [k] && ValueAt(m, k, default) == default)
  {
    PutKeepsOrder(m, k, default);
  }

  /** `DefaultOrderedDict`: an `OrderedDict` whose `factory` supplies, and stores, the value of a missing key. */
  class DefaultOrderedDict<K(==,!new), V> {
    var keys: seq<K>
    var entries: map<K, V>
    /** The value the factory produces; every factory call in `tagg.py` gives an equal, empty one. */
    const default: V

    ghost predicate Valid()
      reads this
    {
      WellFormed(Model())
    }

    function Model(): OrderedMap<K, V>
      reads this
    {
      OrderedMap(keys, entries)
    }

    constructor (default: V)
      ensures Valid() && Model() == Empty() && this.default == default
    {
      keys := [];
      entries := map[];
      this.default := default;
    }

    /** `__getitem__`: the stored value, or the factory's value, stored under the key first. */
    method Get(k: K) returns (v: V)
      requires Valid()
      modifies this
      ensures Valid()
      ensures v == ValueAt(old(Model()), k, default)
      ensures Model() == Touched(old(Model()), k, default)
    {
      TouchedAddsDefault(Model(), k, default);
      if k in entries {
        v := entries[k];
      } else {
        v := default;
        keys := keys + [k];
        entries := entries[k := v];
      }
    }

    /** `__setitem__`, inherited from `OrderedDict`. */
    method Set(k: K, v: V)
      requires Valid()
      modifies this
      ensures Valid()
      ensures Model() == Put(old(Model()), k, v)
    {
      PutKeepsOrder(Model(), k, v);
      if k !in entries {
        keys := keys + [k];
      }
      entries := entries[k := v];
    }
  }

  /** One entry of a `collections.Counter`: a value and how often it was counted. */
  datatype Tally<V> = Tally(value: V, count: nat)

  /** The counted values, in the order they were first counted. */
  function Values<V>(ts: seq<Tally<V>>): (vs: seq<V>)
    ensures |vs| == |ts| && forall i :: 0 <= i < |ts| ==> vs[i] == ts[i].value
  {
    seq(|ts|, i requires 0 <= i < |ts| => ts[i].value)
  }

  /** `c[v]` on a `collections.Counter`: the count of `v`, zero when it was never counted. */
  function CountOf<V(==)>(ts: seq<Tally<V>>, v: V): nat
    decreases |ts|
  {
    if ts == [] then 0 else if ts[0].value == v then ts[0].count else CountOf(ts[1..], v)
  }

  /**
   * `c[v] += 1`: the count of `v` goes up by one and no other count changes; a value counted for
   * the first time goes after all the others.
   */
  function Increment<V(==,!new)>(ts: seq<Tally<V>>, v: V): (r: seq<Tally<V>>)
    ensures forall u :: CountOf(r, u) == CountOf(ts, u) + (if u == v then 1 else 0)
    ensures Values(r) == if v in Values(ts) then Values(ts) else Values(ts) + [v]
    decreases |ts|
  {
    if ts == [] then [Tally(v, 1)]
    else if ts[0].value == v then [Tally(v, ts[0].count + 1)] + ts[1..]
    else
      var rest := Increment(ts[1..], v);
      assert Values(ts) == [ts[0].value] + Values(ts[1..]);
      assert Values([ts[0]] + rest) == [ts[0].value] + Values(rest);
      [ts[0]] + rest
  }

  /** The counter after counting every value of `vs` in turn. */
  function IncrementAll<V(==,!new)>(ts: seq<Tally<V>>, vs: seq<V>): seq<Tally<V>>
    decreases |vs|
  {
    if vs == [] then ts else Increment(IncrementAll(ts, vs[..|vs| - 1]), vs[|vs| - 1])
  }

  /** Counting a sequence of values from nothing gives each value the number of times it occurs. */
  lemma {:induction false} CountsAreOccurrences<V(!new)>(vs: seq<V>)
    ensures forall u :: CountOf(IncrementAll([], vs), u) == multiset(vs)[u]
    ensures forall u :: u in Values(IncrementAll([], vs)) <==> u in vs
    decreases |vs|
  {
    if vs != [] {
      var front := vs[..|vs| - 1];
      CountsAreOccurrences(front);
      assert vs == front + [vs[|vs| - 1]];
    }
  }

  /**
   * Where Python's `max(items, key=count)` lands: the first tally whose count is greater than
   * the count of every tally before it and at least that of every tally after it.
   */
  function BestIndex<V>(ts: seq<Tally<V>>): (b: nat)
    requires ts != []
    ensures b < |ts|
    ensures forall j :: 0 <= j < |ts| ==> ts[j].count <= ts[b].count
    ensures forall j :: 0 <= j < b ==> ts[j].count < ts[b].count
    decreases |ts|
  {
    if |ts| == 1 then 0
    else
      var b := BestIndex(ts[..|ts| - 1]);
      assert forall j :: 0 <= j < |ts| - 1 ==> ts[..|ts| - 1][j] == ts[j];
      if ts[|ts| - 1].count > ts[b].count then |ts| - 1 else b
  }

  /**
   * `most_common(1)` of a `collections.Counter` and `tagg.py`'s `Counter.__getitem__` on it:
   * nothing for an empty counter, otherwise a value of highest count, the earliest counted one
   * among equals.
   */
  function FirstMost<V>(ts: seq<Tally<V>>): (r: Option<V>)
    ensures r.None? <==> ts == []
  {
    if ts == [] then None else Some(ts[BestIndex(ts)].value)
  }

  /** No value is listed twice. */
  ghost predicate Distinct<V>(vs: seq<V>)
  {
    forall i, j :: 0 <= i < j < |vs| ==> vs[i] != vs[j]
  }

  /** A counter built by counting lists each value once. */
  lemma {:induction false} CountedOnce<V(!new)>(vs: seq<V>)
    ensures Distinct(Values(IncrementAll([], vs)))
    decreases |vs|
  {
    if vs != [] {
      var front := IncrementAll([], vs[..|vs| - 1]);
      CountedOnce(vs[..|vs| - 1]);
      var v := vs[|vs| - 1];
      if v !in Values(front) {
        var r := Values(front) + [v];
        forall i, j | 0 <= i < j < |r|
          ensures r[i] != r[j]
        {
          if j == |r| - 1 {
            assert r[i] == Values(front)[i];
          }
        }
      }
    }
  }

  /** When every value is listed once, the count looked up for a listed value is its own tally's. */
  lemma {:induction false} CountAtIndex<V>(ts: seq<Tally<V>>, i: nat)
    requires Distinct(Values(ts)) && i < |ts|
    ensures CountOf(ts, ts[i].value) == ts[i].count
    decreases i
  {
    if i > 0 {
      assert Values(ts)[0] != Values(ts)[i];
      var rest := ts[1..];
      assert Distinct(Values(rest)) by {
        forall a, b | 0 <= a < b < |rest|
          ensures Values(rest)[a] != Values(rest)[b]
        {
          assert Values(ts)[a + 1] != Values(ts)[b + 1];
        }
      }
      CountAtIndex(rest, i - 1);
    }
  }

  /**
   * The value `Counter` answers with after counting `vs` occurs at least as often in `vs` as any
   * other value, and every value first seen before it occurs strictly less often.
   */
  lemma MostCommonOfCounts<V(!new)>(vs: seq<V>)
    ensures FirstMost(IncrementAll([], vs)).None? <==> vs == []
    ensures FirstMost(IncrementAll([], vs)).Some? ==>
      var v := FirstMost(IncrementAll([], vs)).value;
      && v in vs
      && (forall u :: multiset(vs)[u] <= multiset(vs)[v])
      && (forall i :: 0 <= i < |Values(IncrementAll([], vs))| && Values(IncrementAll([], vs))[i] == v ==>
            forall j :: 0 <= j < i ==> multiset(vs)[Values(IncrementAll([], vs))[j]] < multiset(vs)[v])
  {
    var ts := IncrementAll([], vs);
    CountsAreOccurrences(vs);
    CountedOnce(vs);
    if vs != [] {
      var b := BestIndex(ts);
      var v := ts[b].value;
      CountAtIndex(ts, b);
      assert v in Values(ts);
      forall u
        ensures multiset(vs)[u] <= multiset(vs)[v]
      {
        if u in Values(ts) {
          var k :| 0 <= k < |ts| && Values(ts)[k] == u;
          CountAtIndex(ts, k);
        }
      }
      forall i, j | 0 <= i < |Values(ts)| && Values(ts)[i] == v && 0 <= j < i
        ensures multiset(vs)[Values(ts)[j]] < multiset(vs)[v]
      {
        assert i == b;
        CountAtIndex(ts, j);
      }
    }
  }

  /** `Counter.__setitem__` on the dictionary of counters: the counter of `k`, created if missing, counts `v` once more. */
  function Record<K, V(==,!new)>(m: OrderedMap<K, seq<Tally<V>>>, k: K, v: V): OrderedMap<K, seq<Tally<V>>>
  {
    Put(m, k, Increment(ValueAt(m, k, []), v))
  }

  /** The dictionary of counters after `counter[k] = v` for each pair in turn. */
  function RecordAll<K, V(==,!new)>(m: OrderedMap<K, seq<Tally<V>>>, obs: seq<(K, V)>): OrderedMap<K, seq<Tally<V>>>
    decreases |obs|
  {
    if obs == [] then m else Record(RecordAll(m, obs[..|obs| - 1]), obs[|obs| - 1].0, obs[|obs| - 1].1)
  }

  /** The values observed for `k`, in order. */
  function ValuesFor<K(==), V>(obs: seq<(K, V)>, k: K): (vs: seq<V>)
    ensures |vs| <= |obs|
    decreases |obs|
  {
    if obs == [] then []
    else
      var front := ValuesFor(obs[..|obs| - 1], k);
      if obs[|obs| - 1].0 == k then front + [obs[|obs| - 1].1] else front
  }

  /** `known` followed by the keys of `obs` not seen before, in order of first appearance. */
  function KeyOrder<K(==), V>(known: seq<K>, obs: seq<(K, V)>): seq<K>
    decreases |obs|
  {
    if obs == [] then known
    else
      var front := KeyOrder(known, obs[..|obs| - 1]);
      if obs[|obs| - 1].0 in front then front else front + [obs[|obs| - 1].0]
  }

  /** The counter kept for a key has counted exactly the values observed for that key, in order. */
  lemma {:induction false} RecordAllTallies<K, V(!new)>(m: OrderedMap<K, seq<Tally<V>>>, obs: seq<(K, V)>, k: K)
    ensures ValueAt(RecordAll(m, obs), k, []) == IncrementAll(ValueAt(m, k, []), ValuesFor(obs, k))
    decreases |obs|
  {
    if obs != [] {
      RecordAllTallies(m, obs[..|obs| - 1], k);
    }
  }

  /** Keys are listed once each, in the order they were first assigned. */
  lemma {:induction false} RecordAllKeyOrder<K(!new), V(!new)>(m: OrderedMap<K, seq<Tally<V>>>, obs: seq<(K, V)>)
    requires WellFormed(m)
    ensures WellFormed(RecordAll(m, obs))
    ensures RecordAll(m, obs).keys == KeyOrder(m.keys, obs)
    decreases |obs|
  {
    if obs != [] {
      var front := RecordAll(m, obs[..|obs| - 1]);
      RecordAllKeyOrder(m, obs[..|obs| - 1]);
      var (k, v) := obs[|obs| - 1];
      PutKeepsOrder(front, k, Increment(ValueAt(front, k, []), v));
    }
  }

  /** The keys of a `Counter` and the value it answers for each, in order: what iterating over it yields. */
  function Summary<K, V>(m: OrderedMap<K, seq<Tally<V>>>): seq<(K, Option<V>)>
  {
    seq(|m.keys|, i requires 0 <= i < |m.keys| => (m.keys[i], FirstMost(ValueAt(m, m.keys[i], []))))
  }

  /** `tagg.py`'s `Counter`: a `DefaultOrderedDict` of `collections.Counter`s, one per key. */
  class Counter<K(==,!new), V(==,!new)> {
    const data: DefaultOrderedDict<K, seq<Tally<V>>>

    ghost predicate Valid()
      reads this, data
    {
      data.Valid() && data.default == []
    }

    constructor ()
      ensures fresh(data) && Valid() && data.Model() == Empty()
    {
      data := new DefaultOrderedDict([]);
    }

    /** `__setitem__`: one more count of `v` under `k`. */
    method Set(k: K, v: V)
      requires Valid()
      modifies data
      ensures Valid() && data.Model() == Record(old(data.Model()), k, v)
    {
      var tallies := data.Get(k);
      data.Set(k, Increment(tallies, v));
      PutTwice(old(data.Model()), k, [], Increment(tallies, v));
    }

    /** `__getitem__`: the most common value under `k`, or `None`; a key never set is stored with an empty counter. */
    method Get(k: K) returns (r: Option<V>)
      requires Valid()
      modifies data
      ensures Valid()
      ensures r == FirstMost(ValueAt(old(data.Model()), k, []))
      ensures data.Model() == Touched(old(data.Model()), k, [])
    {
      var tallies := data.Get(k);
      if tallies == [] {
        r := None;
      } else {
        r := Some(tallies[BestIndex(tallies)].value);
      }
    }

    /** `__iter__`: each key in the order it was first touched, with the value `__getitem__` gives for it. */
    method Items() returns (items: seq<(K, Option<V>)>)
      requires Valid()
      modifies data
      ensures Valid() && data.Model() == old(data.Model())
      ensures items == Summary(data.Model())
    {
      items := [];
      var i := 0;
      while i < |data.keys|
        invariant Valid() && data.Model() == old(data.Model())
        invariant i <= |data.keys|
        invariant items == Summary(data.Model())[..i]
        decreases |data.keys| - i
      {
        var k := data.keys[i];
        var r := Get(k);
        items := items + [(k, r)];
        i := i + 1;
      }
    }
  }

  /** Under a single key, every observed value is that key's, and the key is the only one listed. */
  lemma {:induction false} SingleKey<K, V>(obs: seq<(K, V)>, k: K)
    requires forall i :: 0 <= i < |obs| ==> obs[i].0 == k
    ensures ValuesFor(obs, k) == seq(|obs|, i requires 0 <= i < |obs| => obs[i].1)
    ensures KeyOrder([], obs) == if obs == [] then [] else [k]
    decreases |obs|
  {
    if obs != [] {
      SingleKey(obs[..|obs| - 1], k);
    }
  }

  /** The docstring's example: three times `v1` then five times `v2` under one key. */
  const DocstringValues: seq<string> := ["v1", "v1", "v1", "v2", "v2", "v2", "v2", "v2"]

  const DocstringObservations: seq<(string, string)> :=
    seq(|DocstringValues|, i requires 0 <= i < |DocstringValues| => ("k", DocstringValues[i]))

  /** The docstring's values: `v1` three times, `v2` five times, nothing else. */
  lemma DocstringCounts()
    ensures multiset(DocstringValues)["v1"] == 3 && multiset(DocstringValues)["v2"] == 5
    ensures forall v :: v in DocstringValues ==> v == "v1" || v == "v2"
  {
    var ones, twos := ["v1", "v1", "v1"], ["v2", "v2", "v2", "v2", "v2"];
    assert "v1" != "v2" by { assert "v1"[1] != "v2"[1]; }
    assert DocstringValues == ones + twos;
    assert multiset(ones) == multiset{"v1", "v1", "v1"};
    assert multiset(twos) == multiset{"v2", "v2", "v2", "v2", "v2"};
    assert multiset(DocstringValues) == multiset(ones) + multiset(twos);
  }

  /** Counting the docstring's values, `v2` (five times) wins over `v1` (three times). */
  lemma DocstringMostCommon()
    ensures FirstMost(IncrementAll([], DocstringValues)) == Some("v2")
  {
    var vs := DocstringValues;
    MostCommonOfCounts(vs);
    DocstringCounts();
    var v := FirstMost(IncrementAll([], vs)).value;
    assert v in vs && multiset(vs)["v2"] <= multiset(vs)[v];
  }

  /** The docstring's assignments all go to `k`, with the docstring's values in order. */
  lemma DocstringObserved()
    ensures ValuesFor(DocstringObservations, "k") == DocstringValues
    ensures KeyOrder([], DocstringObservations) == ["k"]
  {
    var obs := DocstringObservations;
    assert forall i :: 0 <= i < |obs| ==> obs[i] == ("k", DocstringValues[i]);
    SingleKey(obs, "k");
  }

  /** After the docstring's assignments the counter lists `k` alone, with the tally of the docstring's values. */
  lemma DocstringRecorded()
    ensures RecordAll(Empty(), DocstringObservations).keys == ["k"]
    ensures ValueAt(RecordAll(Empty(), DocstringObservations), "k", []) == IncrementAll([], DocstringValues)
  {
    DocstringObserved();
    RecordAllTallies(Empty(), DocstringObservations, "k");
    RecordAllKeyOrder(Empty(), DocstringObservations);
  }

  /**
   * The docstring's example: iterating the counter yields the one key with `v2`, the value
   * counted most, although the docstring's comment says `v1`.
   */
  lemma DocstringScenario()
    ensures Summary(RecordAll(Empty(), DocstringObservations)) == [("k", Some("v2"))]
  {
    var m := RecordAll(Empty(), DocstringObservations);
    DocstringRecorded();
    DocstringMostCommon();
    assert |Summary(m)| == 1;
    assert Summary(m)[0] == ("k", Some("v2"));
  }
}
