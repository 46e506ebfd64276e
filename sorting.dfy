/** The result of `Array.prototype.sort` with a numeric comparator
    `(a, b) => key(a) - key(b)`: the elements in ascending key order, elements
    of equal key in their original order (the sort is stable). A descending
    comparator `(a, b) => key(b) - key(a)` is the ascending sort on `-key`. */
module Sorting {

  /** Ascending by key. */
  predicate SortedBy<T>(s: seq<T>, key: T -> int) {
    forall i, j :: 0 <= i < j < |s| ==> key(s[i]) <= key(s[j])
  }

  /** The elements of s whose key is k, in order. */
  function WithKey<T>(s: seq<T>, key: T -> int, k: int): seq<T> {
    if s == [] then [] else (if key(s[0]) == k then [s[0]] else []) + WithKey(s[1..], key, k)
  }

  /** Inserts x before the first element whose key is not smaller. */
  function InsertBy<T>(x: T, t: seq<T>, key: T -> int): seq<T> {
    if t == [] then [x]
    else if key(x) <= key(t[0]) then [x] + t
    else [t[0]] + InsertBy(x, t[1..], key)
  }

  /** Stable insertion sort. */
  function SortBy<T>(s: seq<T>, key: T -> int): seq<T> {
    if s == [] then [] else InsertBy(s[0], SortBy(s[1..], key), key)
  }

  /** Every key of s is at least b. */
  predicate AtLeast<T>(s: seq<T>, key: T -> int, b: int) {
    forall i :: 0 <= i < |s| ==> b <= key(s[i])
  }

  lemma {:induction false} InsertByAtLeast<T>(x: T, t: seq<T>, key: T -> int, b: int)
    requires b <= key(x) && AtLeast(t, key, b)
    ensures AtLeast(InsertBy(x, t, key), key, b)
  {
    if t != [] && key(x) > key(t[0]) {
      InsertByAtLeast(x, t[1..], key, b);
    }
  }

  lemma {:induction false} InsertBySorted<T>(x: T, t: seq<T>, key: T -> int)
    requires SortedBy(t, key)
    ensures SortedBy(InsertBy(x, t, key), key)
  {
    if t != [] && key(x) > key(t[0]) {
      InsertBySorted(x, t[1..], key);
      InsertByAtLeast(x, t[1..], key, key(t[0]));
    }
  }

  lemma {:induction false} InsertByMultiset<T>(x: T, t: seq<T>, key: T -> int)
    ensures multiset(InsertBy(x, t, key)) == multiset(t) + multiset{x}
  {
    if t != [] && key(x) > key(t[0]) {
      InsertByMultiset(x, t[1..], key);
      assert t == [t[0]] + t[1..];
    }
  }

  /** The sort orders by key and is a permutation of its input. */
  lemma {:induction false} SortByCorrect<T>(s: seq<T>, key: T -> int)
    ensures SortedBy(SortBy(s, key), key)
    ensures multiset(SortBy(s, key)) == multiset(s)
  {
    if s != [] {
      SortByCorrect(s[1..], key);
      InsertBySorted(s[0], SortBy(s[1..], key), key);
      InsertByMultiset(s[0], SortBy(s[1..], key), key);
      assert s == [s[0]] + s[1..];
    }
  }

  lemma {:induction false} WithKeyInsert<T>(x: T, t: seq<T>, key: T -> int, k: int)
    ensures WithKey(InsertBy(x, t, key), key, k) == (if key(x) == k then [x] else []) + WithKey(t, key, k)
  {
    var own := if key(x) == k then [x] else [];
    if t == [] {
      assert [x][1..] == [];
    } else if key(x) <= key(t[0]) {
      var r := [x] + t;
      assert r[0] == x && r[1..] == t;
      assert WithKey(r, key, k) == own + WithKey(t, key, k);
    } else {
      var head := if key(t[0]) == k then [t[0]] else [];
      var rest := InsertBy(x, t[1..], key);
      WithKeyInsert(x, t[1..], key, k);
      var r := [t[0]] + rest;
      assert r[0] == t[0] && r[1..] == rest;
      assert WithKey(r, key, k) == head + (own + WithKey(t[1..], key, k));
      assert head == [] || own == [];
      assert WithKey(t, key, k) == head + WithKey(t[1..], key, k);
    }
  }

  /** The sort is stable: the elements of each key keep their relative order. */
  lemma {:induction false} SortByStable<T>(s: seq<T>, key: T -> int, k: int)
    ensures WithKey(SortBy(s, key), key, k) == WithKey(s, key, k)
  {
    if s != [] {
      SortByStable(s[1..], key, k);
      WithKeyInsert(s[0], SortBy(s[1..], key), key, k);
    }
  }

  /** Sorting preserves the length. */
  lemma SortByLength<T>(s: seq<T>, key: T -> int)
    ensures |SortBy(s, key)| == |s|
  {
    SortByCorrect(s, key);
    assert |multiset(SortBy(s, key))| == |multiset(s)|;
  }
}
