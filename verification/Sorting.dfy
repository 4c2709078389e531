/** The stable sort behind list.sort(key=...). */
module Sorting {

  ghost predicate Sorted<T>(xs: seq<T>, key: T -> int) {
    forall i, j :: 0 <= i < j < |xs| ==> key(xs[i]) <= key(xs[j])
  }

  /** The elements with the given key, in order. */
  function WithKey<T>(xs: seq<T>, key: T -> int, k: int): seq<T> {
    if xs == [] then [] else (if key(xs[0]) == k then [xs[0]] else []) + WithKey(xs[1..], key, k)
  }

  /** `x` goes in front of the first element whose key is not smaller. */
  function Insert<T>(x: T, xs: seq<T>, key: T -> int): seq<T> {
    if xs == [] || key(x) <= key(xs[0]) then [x] + xs else [xs[0]] + Insert(x, xs[1..], key)
  }

  function SortBy<T>(xs: seq<T>, key: T -> int): seq<T> {
    if xs == [] then [] else Insert(xs[0], SortBy(xs[1..], key), key)
  }

  lemma {:induction false} InsertKeepsElements<T>(x: T, xs: seq<T>, key: T -> int)
    ensures multiset(Insert(x, xs, key)) == multiset(xs) + multiset{x}
  {
    if xs != [] && key(x) > key(xs[0]) {
      InsertKeepsElements(x, xs[1..], key);
      assert xs == [xs[0]] + xs[1..];
    }
  }

  lemma {:induction false} InsertIsSorted<T>(x: T, xs: seq<T>, key: T -> int)
    requires Sorted(xs, key)
    ensures Sorted(Insert(x, xs, key), key)
  {
    if xs != [] && key(x) > key(xs[0]) {
      InsertIsSorted(x, xs[1..], key);
      var r := Insert(x, xs[1..], key);
      assert xs[1..] == [] || key(xs[0]) <= key(xs[1..][0]);
      assert key(xs[0]) <= key(r[0]);
    }
  }

  lemma {:induction false} InsertIsStable<T>(x: T, xs: seq<T>, key: T -> int, k: int)
    ensures WithKey(Insert(x, xs, key), key, k) == WithKey([x] + xs, key, k)
  {
    assert ([x] + xs)[1..] == xs;
    if xs != [] && key(x) > key(xs[0]) {
      InsertIsStable(x, xs[1..], key, k);
      assert ([x] + xs[1..])[1..] == xs[1..];
      assert Insert(x, xs, key)[1..] == Insert(x, xs[1..], key);
    }
  }

  /** The result is sorted and has the same elements. */
  lemma {:induction false} SortIsSorted<T>(xs: seq<T>, key: T -> int)
    ensures Sorted(SortBy(xs, key), key) && multiset(SortBy(xs, key)) == multiset(xs)
    ensures |SortBy(xs, key)| == |xs|
  {
    if xs != [] {
      SortIsSorted(xs[1..], key);
      InsertIsSorted(xs[0], SortBy(xs[1..], key), key);
      InsertKeepsElements(xs[0], SortBy(xs[1..], key), key);
      assert xs == [xs[0]] + xs[1..];
    }
    assert |multiset(SortBy(xs, key))| == |multiset(xs)|;
  }

  /** Elements with equal keys keep their order. */
  lemma {:induction false} SortIsStable<T>(xs: seq<T>, key: T -> int, k: int)
    ensures WithKey(SortBy(xs, key), key, k) == WithKey(xs, key, k)
  {
    if xs != [] {
      SortIsStable(xs[1..], key, k);
      InsertIsStable(xs[0], SortBy(xs[1..], key), key, k);
      assert ([xs[0]] + SortBy(xs[1..], key))[1..] == SortBy(xs[1..], key);
    }
  }

  lemma {:induction false} HasKey<T>(xs: seq<T>, key: T -> int, k: int)
    ensures WithKey(xs, key, k) != [] <==> exists i :: 0 <= i < |xs| && key(xs[i]) == k
  {
    if xs != [] {
      HasKey(xs[1..], key, k);
      if i :| 0 <= i < |xs[1..]| && key(xs[1..][i]) == k {
        assert key(xs[i + 1]) == k;
      }
      if j :| 0 < j < |xs| && key(xs[j]) == k {
        assert xs[1..][j - 1] == xs[j];
      }
    }
  }

  lemma SmallestFirst<T>(a: seq<T>, b: seq<T>, key: T -> int)
    requires a != [] && Sorted(b, key) && WithKey(a, key, key(a[0])) == WithKey(b, key, key(a[0]))
    ensures b != [] && key(b[0]) <= key(a[0])
  {
    HasKey(a, key, key(a[0]));
    HasKey(b, key, key(a[0]));
  }

  /** Nothing else is sorted and stable: that alone determines the result. */
  lemma {:induction false} StableSortIsUnique<T>(a: seq<T>, b: seq<T>, key: T -> int)
    requires Sorted(a, key) && Sorted(b, key)
    requires forall k :: WithKey(a, key, k) == WithKey(b, key, k)
    ensures a == b
  {
    if a != [] {
      SmallestFirst(a, b, key);
      SmallestFirst(b, a, key);
      var k := key(a[0]);
      assert WithKey(a, key, k)[0] == a[0] && WithKey(b, key, k)[0] == b[0];
      forall k
        ensures WithKey(a[1..], key, k) == WithKey(b[1..], key, k)
      {
        assert WithKey(a, key, k) == WithKey(b, key, k);
        assert WithKey(a, key, k) == (if key(a[0]) == k then [a[0]] else []) + WithKey(a[1..], key, k);
        assert WithKey(b, key, k) == (if key(a[0]) == k then [a[0]] else []) + WithKey(b[1..], key, k);
        SamePrefix(if key(a[0]) == k then [a[0]] else [], WithKey(a[1..], key, k), WithKey(b[1..], key, k));
      }
      StableSortIsUnique(a[1..], b[1..], key);
      assert a == [a[0]] + a[1..] && b == [b[0]] + b[1..];
    } else if b != [] {
      SmallestFirst(b, a, key);
    }
  }

  lemma SamePrefix<T>(p: seq<T>, a: seq<T>, b: seq<T>)
    requires p + a == p + b
    ensures a == b
  {
    assert a == (p + a)[|p|..] && b == (p + b)[|p|..];
  }

  ghost predicate DistinctKeys<T>(xs: seq<T>, key: T -> int) {
    forall i, j :: 0 <= i < j < |xs| ==> key(xs[i]) != key(xs[j])
  }

  lemma {:induction false} OneWithKey<T>(xs: seq<T>, key: T -> int, i: nat)
    requires DistinctKeys(xs, key) && i < |xs|
    ensures WithKey(xs, key, key(xs[i])) == [xs[i]]
  {
    HasKey(xs[1..], key, key(xs[i]));
    if i > 0 {
      OneWithKey(xs[1..], key, i - 1);
    } else {
      assert forall j :: 0 <= j < |xs[1..]| ==> key(xs[1..][j]) != key(xs[0]);
    }
  }

  lemma SameWithKey<T>(xs: seq<T>, ys: seq<T>, key: T -> int, i: nat)
    requires DistinctKeys(xs, key) && DistinctKeys(ys, key) && i < |xs| && xs[i] in ys
    ensures WithKey(xs, key, key(xs[i])) == WithKey(ys, key, key(xs[i]))
  {
    var j :| 0 <= j < |ys| && ys[j] == xs[i];
    OneWithKey(xs, key, i);
    OneWithKey(ys, key, j);
  }

  /** With distinct keys the order of the input does not matter. */
  lemma OrderDoesNotMatter<T>(xs: seq<T>, ys: seq<T>, key: T -> int)
    requires DistinctKeys(xs, key) && DistinctKeys(ys, key)
    requires forall x :: x in xs <==> x in ys
    ensures SortBy(xs, key) == SortBy(ys, key)
  {
    SortIsSorted(xs, key);
    SortIsSorted(ys, key);
    forall k
      ensures WithKey(SortBy(xs, key), key, k) == WithKey(SortBy(ys, key), key, k)
    {
      SortIsStable(xs, key, k);
      SortIsStable(ys, key, k);
      SameOfEveryKey(xs, ys, key, k);
    }
    StableSortIsUnique(SortBy(xs, key), SortBy(ys, key), key);
  }

  lemma SameOfEveryKey<T>(xs: seq<T>, ys: seq<T>, key: T -> int, k: int)
    requires DistinctKeys(xs, key) && DistinctKeys(ys, key)
    requires forall x :: x in xs <==> x in ys
    ensures WithKey(xs, key, k) == WithKey(ys, key, k)
  {
    HasKey(xs, key, k);
    HasKey(ys, key, k);
    if WithKey(xs, key, k) != [] {
      var i :| 0 <= i < |xs| && key(xs[i]) == k;
      SameWithKey(xs, ys, key, i);
    } else {
      assert forall j :: 0 <= j < |ys| ==> ys[j] in xs;
    }
  }
}
