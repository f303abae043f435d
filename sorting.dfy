/** Stable sorting, as ECMAScript's `Array.prototype.sort(compare)` does it since
    ES2019, and as the catalog's `ORDER BY` is modelled.

    A comparator is given as `before(a, b)`: "a must come strictly before b"
    (the comparator returns a negative number). Every comparator in the
    repository is a strict weak order, and for such an order every stable sort
    returns the same sequence, so insertion sort stands for the engine's sort. */
module Sorting {
  import opened Collections

  /** The laws a consistent comparator obeys. */
  ghost predicate StrictWeakOrder<T(!new)>(before: (T, T) -> bool) {
    && (forall a :: !before(a, a))
    && (forall a, b :: before(a, b) ==> !before(b, a))
    && (forall a, b, c :: !before(a, b) && !before(b, c) ==> !before(a, c))
  }

  /** No element is strictly before one that precedes it. */
  ghost predicate SortedBy<T>(s: seq<T>, before: (T, T) -> bool) {
    forall i, j :: 0 <= i < j < |s| ==> !before(s[j], s[i])
  }

  /** `a` and `b` compare equal. */
  predicate Tie<T>(a: T, b: T, before: (T, T) -> bool) {
    !before(a, b) && !before(b, a)
  }

  /** The elements of `s` that compare equal to `k`, in the order of `s`. */
  function Tied<T>(s: seq<T>, k: T, before: (T, T) -> bool): seq<T> {
    if s == [] then []
    else (if Tie(s[0], k, before) then [s[0]] else []) + Tied(s[1..], k, before)
  }

  /** Puts `x` in front of the first element that is not strictly before it. */
  function Insert<T>(x: T, s: seq<T>, before: (T, T) -> bool): (r: seq<T>)
    ensures |r| == |s| + 1
    ensures multiset(r) == multiset(s) + multiset{x}
  {
    if s == [] then [x]
    else if before(s[0], x) then
      assert s == [s[0]] + s[1..];
      [s[0]] + Insert(x, s[1..], before)
    else [x] + s
  }

  /** Stable insertion sort: the result is a permutation of the input. */
  function StableSort<T>(s: seq<T>, before: (T, T) -> bool): (r: seq<T>)
    ensures |r| == |s|
    ensures multiset(r) == multiset(s)
  {
    if s == [] then []
    else
      assert s == [s[0]] + s[1..];
      Insert(s[0], StableSort(s[1..], before), before)
  }

  lemma {:induction false} InsertSorted<T(!new)>(x: T, s: seq<T>, before: (T, T) -> bool)
    requires StrictWeakOrder(before)
    requires SortedBy(s, before)
    ensures SortedBy(Insert(x, s, before), before)
  {
    if s != [] && before(s[0], x) {
      var rest := Insert(x, s[1..], before);
      InsertSorted(x, s[1..], before);
      forall z | z in rest
        ensures !before(z, s[0])
      {
        assert z in multiset(rest);
        if z != x {
          assert z in multiset(s[1..]);
          var k :| 0 <= k < |s[1..]| && s[1..][k] == z;
          assert s[k + 1] == z;
        }
      }
      var r := [s[0]] + rest;
      forall i, j | 0 <= i < j < |r|
        ensures !before(r[j], r[i])
      {
        if i == 0 {
          assert r[j] in rest;
        } else {
          assert r[i] == rest[i - 1] && r[j] == rest[j - 1];
        }
      }
    } else if s != [] {
      var r := [x] + s;
      forall i, j | 0 <= i < j < |r|
        ensures !before(r[j], r[i])
      {
        if i == 0 {
          assert !before(s[0], x);
          if j > 1 {
            assert !before(s[j - 1], s[0]);
          }
        } else {
          assert r[i] == s[i - 1] && r[j] == s[j - 1];
        }
      }
    }
  }

  /** The sort orders its result. */
  lemma {:induction false} StableSortSorted<T(!new)>(s: seq<T>, before: (T, T) -> bool)
    requires StrictWeakOrder(before)
    ensures SortedBy(StableSort(s, before), before)
  {
    if s != [] {
      StableSortSorted(s[1..], before);
      InsertSorted(s[0], StableSort(s[1..], before), before);
    }
  }

  /** In a sorted sequence, an element left out of a prefix is strictly
      before none of the prefix's elements. */
  lemma SortedCutOff<T>(s: seq<T>, before: (T, T) -> bool, n: nat, x: T)
    requires SortedBy(s, before) && n <= |s| && x in s && x !in s[..n]
    ensures forall y :: y in s[..n] ==> !before(x, y)
  {
    var j :| 0 <= j < |s| && s[j] == x;
    assert j >= n by {
      assert forall i :: 0 <= i < n ==> s[..n][i] == s[i];
    }
    forall y | y in s[..n] ensures !before(x, y) {
      var i :| 0 <= i < n && s[..n][i] == y;
      assert s[i] == y;
    }
  }

  lemma TiedCons<T>(x: T, s: seq<T>, k: T, before: (T, T) -> bool)
    ensures Tied([x] + s, k, before) == (if Tie(x, k, before) then [x] else []) + Tied(s, k, before)
  {
    assert ([x] + s)[1..] == s;
  }

  lemma {:induction false} TiedInsert<T(!new)>(x: T, s: seq<T>, k: T, before: (T, T) -> bool)
    requires StrictWeakOrder(before)
    ensures Tied(Insert(x, s, before), k, before)
         == (if Tie(x, k, before) then [x] else []) + Tied(s, k, before)
  {
    if s == [] {
      TiedCons(x, [], k, before);
    } else if before(s[0], x) {
      var rest := Insert(x, s[1..], before);
      TiedInsert(x, s[1..], k, before);
      TiedCons(s[0], rest, k, before);
      TiedCons(s[0], s[1..], k, before);
      assert s == [s[0]] + s[1..];
      if Tie(x, k, before) {
        // s[0] is strictly before x, so it cannot tie with k as x does
        assert !Tie(s[0], k, before);
      }
    } else {
      TiedCons(x, s, k, before);
    }
  }

  /** Stability: the elements that compare equal keep their original order. */
  lemma {:induction false} StableSortKeepsTies<T(!new)>(s: seq<T>, k: T, before: (T, T) -> bool)
    requires StrictWeakOrder(before)
    ensures Tied(StableSort(s, before), k, before) == Tied(s, k, before)
  {
    if s != [] {
      StableSortKeepsTies(s[1..], k, before);
      TiedInsert(s[0], StableSort(s[1..], before), k, before);
    }
  }

  lemma {:induction false} InsertDistinct<T>(x: T, s: seq<T>, before: (T, T) -> bool)
    requires Distinct(s) && x !in s
    ensures Distinct(Insert(x, s, before))
  {
    if s != [] && before(s[0], x) {
      assert s == [s[0]] + s[1..];
      InsertDistinct(x, s[1..], before);
      var rest := Insert(x, s[1..], before);
      assert s[0] !in rest by {
        assert s[0] !in multiset(s[1..]) + multiset{x};
      }
      DistinctCons(s[0], rest);
    } else {
      DistinctCons(x, s);
    }
  }

  /** Sorting keeps a duplicate-free sequence duplicate-free. */
  lemma {:induction false} StableSortDistinct<T>(s: seq<T>, before: (T, T) -> bool)
    requires Distinct(s)
    ensures Distinct(StableSort(s, before))
  {
    if s != [] {
      assert s == [s[0]] + s[1..];
      StableSortDistinct(s[1..], before);
      assert s[0] !in StableSort(s[1..], before) by {
        assert s[0] !in multiset(s[1..]);
      }
      InsertDistinct(s[0], StableSort(s[1..], before), before);
    }
  }

  /** JavaScript's default comparison of strings, by character codes. */
  predicate StrBefore(a: string, b: string) {
    if a == [] then b != []
    else if b == [] then false
    else if a[0] != b[0] then a[0] < b[0]
    else StrBefore(a[1..], b[1..])
  }

  lemma {:induction false} StrBeforeIrreflexive(a: string)
    ensures !StrBefore(a, a)
  {
    if a != [] {
      StrBeforeIrreflexive(a[1..]);
    }
  }

  lemma {:induction false} StrBeforeTotal(a: string, b: string)
    ensures a == b || StrBefore(a, b) || StrBefore(b, a)
  {
    if a != [] && b != [] && a[0] == b[0] {
      StrBeforeTotal(a[1..], b[1..]);
      if a[1..] == b[1..] {
        assert a == [a[0]] + a[1..] && b == [b[0]] + b[1..];
      }
    }
  }

  lemma {:induction false} StrBeforeAsymmetric(a: string, b: string)
    ensures StrBefore(a, b) ==> !StrBefore(b, a)
  {
    if a != [] && b != [] && a[0] == b[0] {
      StrBeforeAsymmetric(a[1..], b[1..]);
    }
  }

  lemma {:induction false} StrBeforeTransitive(a: string, b: string, c: string)
    ensures StrBefore(a, b) && StrBefore(b, c) ==> StrBefore(a, c)
  {
    if a != [] && b != [] && c != [] && a[0] == b[0] && b[0] == c[0] {
      StrBeforeTransitive(a[1..], b[1..], c[1..]);
    }
  }

  /** Character-code order is a strict total order, hence a consistent comparator. */
  lemma StrBeforeIsStrictWeakOrder()
    ensures StrictWeakOrder(StrBefore)
  {
    forall a ensures !StrBefore(a, a) {
      StrBeforeIrreflexive(a);
    }
    forall a, b ensures StrBefore(a, b) ==> !StrBefore(b, a) {
      StrBeforeAsymmetric(a, b);
    }
    forall a, b, c | !StrBefore(a, b) && !StrBefore(b, c)
      ensures !StrBefore(a, c)
    {
      StrBeforeTotal(a, b);
      StrBeforeTotal(b, c);
      StrBeforeTransitive(c, b, a);
      StrBeforeAsymmetric(a, c);
    }
  }
}
