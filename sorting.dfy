/**
 * `Array.prototype.sort` with a comparator, which JavaScript requires to be stable. Every comparator
 * in the model compares one key: a date string, a file name, a time stamp or a size. The key is
 * written as a sequence of integers ordered lexicographically, so one stable sort serves them all.
 */
module Sorting {

  /** Lexicographic order on keys: a proper prefix comes first, otherwise the first difference decides. */
  predicate Le(a: seq<int>, b: seq<int>)
    decreases |a|
  {
    if a == [] then true
    else if b == [] then false
    else if a[0] != b[0] then a[0] < b[0]
    else Le(a[1..], b[1..])
  }

  lemma {:induction false} LeReflexive(a: seq<int>)
    ensures Le(a, a)
    decreases |a|
  {
    if a != [] {
      LeReflexive(a[1..]);
    }
  }

  lemma {:induction false} LeTotal(a: seq<int>, b: seq<int>)
    ensures Le(a, b) || Le(b, a)
    decreases |a|
  {
    if a != [] && b != [] && a[0] == b[0] {
      LeTotal(a[1..], b[1..]);
    }
  }

  lemma {:induction false} LeAntisymmetric(a: seq<int>, b: seq<int>)
    requires Le(a, b) && Le(b, a)
    ensures a == b
    decreases |a|
  {
    if a != [] {
      LeAntisymmetric(a[1..], b[1..]);
      assert a == [a[0]] + a[1..];
      assert b == [b[0]] + b[1..];
    }
  }

  lemma {:induction false} LeTransitive(a: seq<int>, b: seq<int>, c: seq<int>)
    requires Le(a, b) && Le(b, c)
    ensures Le(a, c)
    decreases |a|
  {
    if a != [] && b != [] && c != [] && a[0] == b[0] && b[0] == c[0] {
      LeTransitive(a[1..], b[1..], c[1..]);
    }
  }

  /**
   * A string as a key: its characters' code units, so `Le` is code-unit order. `localeCompare`
   * agrees with it on strings of digits and one fixed separator, such as dates, but not in general:
   * it orders `a` before `B` and `_` before `-`.
   */
  function StringKey(s: string): (k: seq<int>)
    ensures |k| == |s| && forall i :: 0 <= i < |s| ==> k[i] == s[i] as int
  {
    seq(|s|, i requires 0 <= i < |s| => s[i] as int)
  }

  lemma StringKeyInjective(s: string, t: string)
    requires StringKey(s) == StringKey(t)
    ensures s == t
  {
    assert forall i :: 0 <= i < |s| ==> s[i] as int == t[i] as int;
  }

  predicate Sorted<T>(s: seq<T>, key: T -> seq<int>) {
    forall i, j :: 0 <= i < j < |s| ==> Le(key(s[i]), key(s[j]))
  }

  /** `[y]` when `y` has key `k`, otherwise nothing. */
  function Pick<T>(y: T, key: T -> seq<int>, k: seq<int>): seq<T> {
    if key(y) == k then [y] else []
  }

  /** The elements of `s` whose key is `k`, in their order in `s`. */
  function WithKey<T>(s: seq<T>, key: T -> seq<int>, k: seq<int>): (r: seq<T>)
    ensures |r| <= |s|
  {
    if s == [] then [] else Pick(s[0], key, k) + WithKey(s[1..], key, k)
  }

  /** Places `x` in front of the first element whose key is not below `x`'s. */
  function Insert<T>(x: T, t: seq<T>, key: T -> seq<int>): (r: seq<T>)
    ensures |r| == |t| + 1
    ensures multiset(r) == multiset(t) + multiset{x}
  {
    if t == [] then [x]
    else if Le(key(x), key(t[0])) then [x] + t
    else
      assert t == [t[0]] + t[1..];
      [t[0]] + Insert(x, t[1..], key)
  }

  lemma {:induction false} InsertSorted<T>(x: T, t: seq<T>, key: T -> seq<int>)
    requires Sorted(t, key)
    ensures Sorted(Insert(x, t, key), key)
    decreases |t|
  {
    if t == [] {
    } else if Le(key(x), key(t[0])) {
      ConsSorted(x, t, key);
    } else {
      assert Sorted(t[1..], key);
      InsertSorted(x, t[1..], key);
      LeTotal(key(x), key(t[0]));
      var rest := Insert(x, t[1..], key);
      forall j | 0 <= j < |rest|
        ensures Le(key(t[0]), key(rest[j]))
      {
        var y := rest[j];
        assert y in multiset(rest);
        if y != x {
          assert y in multiset(t[1..]);
          assert y in t[1..];
          var m :| 0 <= m < |t[1..]| && t[1..][m] == y;
          assert t[m + 1] == y;
        }
      }
      ConsSorted(t[0], rest, key);
    }
  }

  /** Putting an element in front of a sorted sequence whose keys are all at least its own keeps it sorted. */
  lemma ConsSorted<T>(x: T, t: seq<T>, key: T -> seq<int>)
    requires Sorted(t, key)
    requires t != [] ==> Le(key(x), key(t[0]))
    ensures Sorted([x] + t, key)
  {
    var r := [x] + t;
    forall i, j | 0 <= i < j < |r|
      ensures Le(key(r[i]), key(r[j]))
    {
      if i == 0 && j > 1 {
        LeTransitive(key(x), key(t[0]), key(t[j - 1]));
      } else if i > 0 {
        assert r[i] == t[i - 1] && r[j] == t[j - 1];
      }
    }
  }

  /** Inserting adds `x` to its own key's elements, in front of them, and to no other key's. */
  lemma {:induction false} InsertWithKey<T>(x: T, t: seq<T>, key: T -> seq<int>, k: seq<int>)
    ensures WithKey(Insert(x, t, key), key, k) == Pick(x, key, k) + WithKey(t, key, k)
    decreases |t|
  {
    var r := Insert(x, t, key);
    if t == [] {
      assert r == [x] && r[1..] == [];
    } else if Le(key(x), key(t[0])) {
      assert r == [x] + t && r[1..] == t;
    } else {
      InsertWithKey(x, t[1..], key, k);
      InsertWithKeyStep(x, t, key, k);
    }
  }

  lemma InsertWithKeyStep<T>(x: T, t: seq<T>, key: T -> seq<int>, k: seq<int>)
    requires t != [] && !Le(key(x), key(t[0]))
    requires WithKey(Insert(x, t[1..], key), key, k) == Pick(x, key, k) + WithKey(t[1..], key, k)
    ensures WithKey(Insert(x, t, key), key, k) == Pick(x, key, k) + WithKey(t, key, k)
  {
    var r := Insert(x, t, key);
    var rest := Insert(x, t[1..], key);
    assert r == [t[0]] + rest && r[1..] == rest;
    if key(x) == k && key(t[0]) == k {
      LeReflexive(k);
    }
    var a, b, w := Pick(t[0], key, k), Pick(x, key, k), WithKey(t[1..], key, k);
    assert WithKey(r, key, k) == a + (b + w);
    assert WithKey(t, key, k) == a + w;
    if a == [] {
      assert a + (b + w) == b + w;
      assert a + w == w;
    } else {
      assert b == [];
      assert b + (a + w) == a + w;
      assert b + w == w;
    }
  }

  /**
   * The stable sort: insertion sort, each element inserted in front of the equal keys that came
   * after it in the input.
   */
  function SortBy<T>(xs: seq<T>, key: T -> seq<int>): (r: seq<T>)
    ensures |r| == |xs|
    ensures multiset(r) == multiset(xs)
  {
    if xs == [] then []
    else
      assert xs == [xs[0]] + xs[1..];
      Insert(xs[0], SortBy(xs[1..], key), key)
  }

  lemma {:induction false} SortBySorted<T>(xs: seq<T>, key: T -> seq<int>)
    ensures Sorted(SortBy(xs, key), key)
    decreases |xs|
  {
    if xs != [] {
      SortBySorted(xs[1..], key);
      InsertSorted(xs[0], SortBy(xs[1..], key), key);
    }
  }

  /** Stability: the elements sharing any one key keep their input order. */
  lemma {:induction false} SortByStable<T>(xs: seq<T>, key: T -> seq<int>, k: seq<int>)
    ensures WithKey(SortBy(xs, key), key, k) == WithKey(xs, key, k)
    decreases |xs|
  {
    if xs != [] {
      SortByStable(xs[1..], key, k);
      InsertWithKey(xs[0], SortBy(xs[1..], key), key, k);
    }
  }

  /** Sorting on a key every element shares leaves the order unchanged (a comparator that returns 0). */
  lemma SortByConstantKey<T>(xs: seq<T>, key: T -> seq<int>, k: seq<int>)
    requires forall i :: 0 <= i < |xs| ==> key(xs[i]) == k
    ensures SortBy(xs, key) == xs
  {
    var r := SortBy(xs, key);
    WithKeyAll(xs, key, k);
    forall i | 0 <= i < |r|
      ensures key(r[i]) == k
    {
      assert r[i] in multiset(xs);
      assert r[i] in xs;
    }
    WithKeyAll(r, key, k);
    SortByStable(xs, key, k);
  }

  lemma {:induction false} WithKeyAll<T>(s: seq<T>, key: T -> seq<int>, k: seq<int>)
    requires forall i :: 0 <= i < |s| ==> key(s[i]) == k
    ensures WithKey(s, key, k) == s
    decreases |s|
  {
    if s != [] {
      WithKeyAll(s[1..], key, k);
      assert s == [s[0]] + s[1..];
    }
  }
}
