/** JavaScript's `Map`, and a plain object used as a dictionary: a finite map
    that remembers the order in which its keys were first set. Setting an
    existing key replaces the value and keeps the key's place.

    A `Map` lists its keys in that order. A plain object does not: its
    `Object.keys` puts the array-index keys first, in ascending numeric
    order, and only then the other keys in insertion order (`ObjectKeys`). */
module JsMaps {
  import opened Collections
  import opened Sorting
  import opened JsNumbers

  datatype JsMap<K(==), V> = JsMap(keys: seq<K>, entries: map<K, V>) {

    /** The keys are distinct and are exactly the domain of the entries. */
    ghost predicate Valid() {
      && (forall i, j :: 0 <= i < j < |keys| ==> keys[i] != keys[j])
      && (forall i :: 0 <= i < |keys| ==> keys[i] in entries)
      && (forall k :: k in entries ==> k in keys)
    }

    function Size(): nat {
      |keys|
    }

    predicate Has(k: K) {
      k in entries
    }

    /** `m.set(k, v)` */
    function Set(k: K, v: V): (r: JsMap<K, V>)
      requires Valid()
      ensures r.Valid()
      ensures r.entries == entries[k := v]
      ensures r.keys == if k in entries then keys else keys + [k]
    {
      if k in entries then JsMap(keys, entries[k := v]) else JsMap(keys + [k], entries[k := v])
    }

    /** `Array.from(m.values())`, in key order. */
    function Values(): (r: seq<V>)
      requires Valid()
      ensures |r| == |keys|
      ensures forall i :: 0 <= i < |keys| ==> r[i] == entries[keys[i]]
    {
      seq(|keys|, i requires 0 <= i < |keys| => entries[keys[i]])
    }
  }

  function Empty<K(==), V>(): (r: JsMap<K, V>)
    ensures r.Valid() && r.keys == [] && r.entries == map[]
  {
    JsMap([], map[])
  }

  /** An array-index property key: the canonical decimal text (no sign, no
      leading zero) of an integer below 2^32 - 1. */
  predicate IsIndexKey(k: string) {
    && |k| > 0
    && (forall i :: 0 <= i < |k| ==> IsDigit(k[i]))
    && (k[0] != '0' || |k| == 1)
    && DigitsValue(k, 10) < 0xFFFF_FFFF
  }

  predicate NotIndexKey(k: string) {
    !IsIndexKey(k)
  }

  /** The numeric value of an index key; other keys do not take part in the
      numeric order. */
  function IndexValue(k: string): nat {
    if IsIndexKey(k) then DigitsValue(k, 10) else 0
  }

  predicate IndexBefore(a: string, b: string) {
    IndexValue(a) < IndexValue(b)
  }

  lemma IndexBeforeIsStrictWeakOrder()
    ensures StrictWeakOrder(IndexBefore)
  {
  }

  /** `Object.keys(o)` of a plain object whose keys were first set in the
      order `keys`. */
  function ObjectKeys(keys: seq<string>): seq<string> {
    StableSort(Filter(keys, IsIndexKey), IndexBefore) + Filter(keys, NotIndexKey)
  }

  /** Every element of the sorted front is an index key. */
  lemma SortedFrontIndexKeys(keys: seq<string>)
    ensures forall x :: x in StableSort(Filter(keys, IsIndexKey), IndexBefore) ==> IsIndexKey(x)
  {
    var front := Filter(keys, IsIndexKey);
    forall x | x in StableSort(front, IndexBefore) ensures IsIndexKey(x) {
      assert x in multiset(StableSort(front, IndexBefore));
      assert x in multiset(front);
    }
  }

  lemma ObjectKeysPermutation(keys: seq<string>)
    ensures multiset(ObjectKeys(keys)) == multiset(keys)
  {
    FilterSplit(keys, IsIndexKey, NotIndexKey);
  }

  lemma ObjectKeysDistinct(keys: seq<string>)
    requires Distinct(keys)
    ensures Distinct(ObjectKeys(keys))
  {
    var sorted := StableSort(Filter(keys, IsIndexKey), IndexBefore);
    var back := Filter(keys, NotIndexKey);
    var r := sorted + back;
    FilterDistinct(keys, IsIndexKey);
    FilterDistinct(keys, NotIndexKey);
    StableSortDistinct(Filter(keys, IsIndexKey), IndexBefore);
    SortedFrontIndexKeys(keys);
    forall i, j | 0 <= i < j < |r| ensures r[i] != r[j] {
      if i < |sorted| && j >= |sorted| {
        assert r[i] == sorted[i] && r[j] == back[j - |sorted|];
        assert r[i] in sorted && r[j] in back;
        assert IsIndexKey(r[i]) && NotIndexKey(r[j]);
      } else if i >= |sorted| {
        assert r[i] == back[i - |sorted|] && r[j] == back[j - |sorted|];
      } else {
        assert r[i] == sorted[i] && r[j] == sorted[j];
      }
    }
  }

  lemma ObjectKeysOrder(keys: seq<string>)
    ensures var r := ObjectKeys(keys);
      forall i, j :: 0 <= i < j < |r| && IsIndexKey(r[j]) ==> IsIndexKey(r[i]) && IndexValue(r[i]) <= IndexValue(r[j])
  {
    var sorted := StableSort(Filter(keys, IsIndexKey), IndexBefore);
    var back := Filter(keys, NotIndexKey);
    var r := sorted + back;
    IndexBeforeIsStrictWeakOrder();
    StableSortSorted(Filter(keys, IsIndexKey), IndexBefore);
    SortedFrontIndexKeys(keys);
    forall k | |sorted| <= k < |r| ensures NotIndexKey(r[k]) {
      assert r[k] == back[k - |sorted|];
    }
    forall i, j | 0 <= i < j < |r| && IsIndexKey(r[j])
      ensures IsIndexKey(r[i]) && IndexValue(r[i]) <= IndexValue(r[j])
    {
      assert r[i] == sorted[i] && r[j] == sorted[j];
      assert !IndexBefore(sorted[j], sorted[i]);
    }
  }

  lemma ObjectKeysBack(keys: seq<string>)
    ensures Filter(ObjectKeys(keys), NotIndexKey) == Filter(keys, NotIndexKey)
  {
    var sorted := StableSort(Filter(keys, IsIndexKey), IndexBefore);
    var back := Filter(keys, NotIndexKey);
    SortedFrontIndexKeys(keys);
    FilterAppend(sorted, back, NotIndexKey);
    FilterNone(sorted, NotIndexKey);
    FilterAll(back, NotIndexKey);
  }

  /** `Object.keys` lists every key once, the index keys first and in
      ascending numeric order, and the other keys in insertion order. */
  lemma ObjectKeysSpec(keys: seq<string>)
    ensures var r := ObjectKeys(keys);
      && multiset(r) == multiset(keys)
      && (Distinct(keys) ==> Distinct(r))
      && (forall i, j :: 0 <= i < j < |r| && IsIndexKey(r[j]) ==> IsIndexKey(r[i]) && IndexValue(r[i]) <= IndexValue(r[j]))
      && Filter(r, NotIndexKey) == Filter(keys, NotIndexKey)
  {
    ObjectKeysPermutation(keys);
    if Distinct(keys) {
      ObjectKeysDistinct(keys);
    }
    ObjectKeysOrder(keys);
    ObjectKeysBack(keys);
  }

  /** Without index keys, `Object.keys` lists the keys in insertion order. */
  lemma ObjectKeysNoIndex(keys: seq<string>)
    requires forall i :: 0 <= i < |keys| ==> !IsIndexKey(keys[i])
    ensures ObjectKeys(keys) == keys
  {
    FilterNone(keys, IsIndexKey);
    FilterAll(keys, NotIndexKey);
  }

  /** A title beginning with a digit gives an index key, which `Object.keys`
      lists before a letter set earlier. */
  lemma DigitKeyFirst()
    ensures ObjectKeys(["B", "1"]) == ["1", "B"]
  {
    assert IsIndexKey("1") && !IsIndexKey("B");
    assert Filter(["B", "1"], IsIndexKey) == ["1"];
    assert Filter(["B", "1"], NotIndexKey) == ["B"];
  }
}
