/** Keeping the first element of each key. The application does this three
    times: the split-point extractor fills a `Map` keyed by stop id only when
    the id is new, the journey search filters with
    `arr.findIndex(j => key(j) === key(x)) === index`, and the journey card
    pushes a transfer station only when it is not yet in the list. */
module Dedup {

  /** The elements of s that satisfy P, in order (`s.filter(P)`). */
  function Filter<T>(s: seq<T>, P: T -> bool): (r: seq<T>)
    ensures |r| <= |s|
    ensures forall i :: 0 <= i < |r| ==> P(r[i])
  {
    if s == [] then []
    else Filter(s[..|s| - 1], P) + (if P(s[|s| - 1]) then [s[|s| - 1]] else [])
  }

  /** Filtering by a predicate and by its negation splits s in two: every
      element lands in exactly one part. */
  lemma {:induction false} FilterComplement<T>(s: seq<T>, P: T -> bool, Q: T -> bool)
    requires forall x :: Q(x) == !P(x)
    ensures |Filter(s, P)| + |Filter(s, Q)| == |s|
    ensures Filter(s, Q) == [] <==> forall i :: 0 <= i < |s| ==> P(s[i])
    ensures Filter(s, P) == [] <==> forall i :: 0 <= i < |s| ==> Q(s[i])
  {
    if s != [] {
      var p := s[..|s| - 1];
      FilterComplement(p, P, Q);
      assert forall i :: 0 <= i < |p| ==> p[i] == s[i];
    }
  }

  /** An element is kept exactly when it occurs in s and passes P. */
  lemma {:induction false} FilterContains<T>(s: seq<T>, P: T -> bool)
    ensures forall x :: x in Filter(s, P) <==> x in s && P(x)
  {
    if s != [] {
      var p := s[..|s| - 1];
      FilterContains(p, P);
      assert s == p + [s[|s| - 1]];
    }
  }

  /** Filtering keeps all of s when every element passes. */
  lemma {:induction false} FilterAll<T>(s: seq<T>, P: T -> bool)
    requires forall i :: 0 <= i < |s| ==> P(s[i])
    ensures Filter(s, P) == s
  {
    if s != [] {
      var p := s[..|s| - 1];
      FilterAll(p, P);
      assert s == p + [s[|s| - 1]];
    }
  }

  /** The keys of the elements of s. */
  function Keys<T, K>(s: seq<T>, key: T -> K): set<K> {
    set i | 0 <= i < |s| :: key(s[i])
  }

  /** No two elements of s share a key. */
  predicate DistinctKeys<T, K(==)>(s: seq<T>, key: T -> K) {
    forall i, j :: 0 <= i < j < |s| ==> key(s[i]) != key(s[j])
  }

  /** a is a subsequence of b: a can be obtained from b by deleting elements. */
  predicate IsSubsequence<T(==)>(a: seq<T>, b: seq<T>)
    decreases |b|
  {
    if a == [] then true
    else if b == [] then false
    else (a[|a| - 1] == b[|b| - 1] && IsSubsequence(a[..|a| - 1], b[..|b| - 1]))
         || IsSubsequence(a, b[..|b| - 1])
  }

  /** The first element of each key, in order of first appearance. */
  function KeepFirst<T, K(==)>(s: seq<T>, key: T -> K): seq<T> {
    if s == [] then []
    else
      var r := KeepFirst(s[..|s| - 1], key);
      if key(s[|s| - 1]) in Keys(r, key) then r else r + [s[|s| - 1]]
  }

  lemma KeysAppend<T, K>(s: seq<T>, x: T, key: T -> K)
    ensures Keys(s + [x], key) == Keys(s, key) + {key(x)}
  {
    var t := s + [x];
    assert forall i :: 0 <= i < |s| ==> t[i] == s[i];
    assert t[|s|] == x;
  }

  /** Keeping the first of each key loses no key. */
  lemma {:induction false} KeepFirstKeys<T, K>(s: seq<T>, key: T -> K)
    ensures Keys(KeepFirst(s, key), key) == Keys(s, key)
  {
    if s != [] {
      var p := s[..|s| - 1];
      KeepFirstKeys(p, key);
      KeysAppend(p, s[|s| - 1], key);
      assert s == p + [s[|s| - 1]];
      if key(s[|s| - 1]) !in Keys(KeepFirst(p, key), key) {
        KeysAppend(KeepFirst(p, key), s[|s| - 1], key);
      }
    }
  }

  /** The result has pairwise distinct keys. */
  lemma {:induction false} KeepFirstDistinct<T, K>(s: seq<T>, key: T -> K)
    ensures DistinctKeys(KeepFirst(s, key), key)
  {
    if s != [] {
      var p := s[..|s| - 1];
      KeepFirstDistinct(p, key);
      var r := KeepFirst(p, key);
      if key(s[|s| - 1]) !in Keys(r, key) {
        var t := r + [s[|s| - 1]];
        forall i, j | 0 <= i < j < |t| ensures key(t[i]) != key(t[j]) {
          if j == |r| {
            assert key(t[i]) in Keys(r, key) by { assert t[i] == r[i]; }
          }
        }
      }
    }
  }

  /** The result is the input with elements deleted, order kept. */
  lemma {:induction false} KeepFirstSubsequence<T, K>(s: seq<T>, key: T -> K)
    ensures IsSubsequence(KeepFirst(s, key), s)
  {
    if s != [] {
      var p := s[..|s| - 1];
      var r := KeepFirst(p, key);
      KeepFirstSubsequence(p, key);
      if key(s[|s| - 1]) in Keys(r, key) {
        assert r != [];
      } else {
        assert (r + [s[|s| - 1]])[..|r|] == r;
      }
    }
  }

  /** Filtering deletes elements and keeps the order of the rest. */
  lemma {:induction false} FilterSubsequence<T>(s: seq<T>, P: T -> bool)
    ensures IsSubsequence(Filter(s, P), s)
  {
    if s != [] {
      var p := s[..|s| - 1];
      var r := Filter(p, P);
      FilterSubsequence(p, P);
      if P(s[|s| - 1]) {
        assert (r + [s[|s| - 1]])[..|r|] == r;
      } else {
        assert Filter(s, P) == r;
      }
    }
  }

  /** A kept element is an element of the input. */
  lemma {:induction false} KeepFirstMembers<T, K>(s: seq<T>, key: T -> K)
    ensures forall x :: x in KeepFirst(s, key) ==> x in s
  {
    if s != [] {
      KeepFirstMembers(s[..|s| - 1], key);
      assert forall x :: x in s[..|s| - 1] ==> x in s;
    }
  }

  /** A list whose keys are already distinct is left as it is. */
  lemma {:induction false} KeepFirstOfDistinct<T, K>(s: seq<T>, key: T -> K)
    requires DistinctKeys(s, key)
    ensures KeepFirst(s, key) == s
  {
    if s != [] {
      var p := s[..|s| - 1];
      assert DistinctKeys(p, key);
      KeepFirstOfDistinct(p, key);
      assert key(s[|s| - 1]) !in Keys(p, key) by {
        forall i | 0 <= i < |p| ensures key(p[i]) != key(s[|s| - 1]) {
          assert p[i] == s[i];
        }
      }
    }
  }

  /** Deduplicating twice is deduplicating once. */
  lemma KeepFirstIdempotent<T, K>(s: seq<T>, key: T -> K)
    ensures KeepFirst(KeepFirst(s, key), key) == KeepFirst(s, key)
  {
    KeepFirstDistinct(s, key);
    KeepFirstOfDistinct(KeepFirst(s, key), key);
  }

  /** The first index of an element of s that satisfies ok and has key k, or |s|
      when there is none (where `findIndex` answers -1, which no index equals). */
  function FirstIndex<T, K(==)>(s: seq<T>, ok: T -> bool, key: T -> K, k: K): (i: nat)
    ensures i <= |s|
    ensures i < |s| ==> ok(s[i]) && key(s[i]) == k
    ensures forall j :: 0 <= j < i ==> !(ok(s[j]) && key(s[j]) == k)
  {
    if s == [] then 0
    else if ok(s[0]) && key(s[0]) == k then 0
    else 1 + FirstIndex(s[1..], ok, key, k)
  }

  /** The source's form of deduplication, over the first n elements of s: keep
      s[i] when it passes `ok` and the first element of the whole list that
      passes `ok` and has its key sits at index i. */
  function FilterFirstIndex<T, K(==)>(s: seq<T>, ok: T -> bool, key: T -> K, n: nat): seq<T>
    requires n <= |s|
  {
    if n == 0 then []
    else
      FilterFirstIndex(s, ok, key, n - 1)
      + (if ok(s[n - 1]) && FirstIndex(s, ok, key, key(s[n - 1])) == n - 1 then [s[n - 1]] else [])
  }

  lemma {:induction false} FirstIndexBelow<T, K>(s: seq<T>, ok: T -> bool, key: T -> K, n: nat)
    requires 0 < n <= |s| && ok(s[n - 1])
    ensures FirstIndex(s, ok, key, key(s[n - 1])) < n - 1
            <==> key(s[n - 1]) in Keys(Filter(s[..n - 1], ok), key)
  {
    var k := key(s[n - 1]);
    FilterMembers(s[..n - 1], ok, key, k);
    var f := FirstIndex(s, ok, key, k);
    if f < n - 1 {
      assert s[..n - 1][f] == s[f];
    } else {
      var q := s[..n - 1];
      forall j | 0 <= j < n - 1 ensures !(ok(q[j]) && key(q[j]) == k) {
        assert q[j] == s[j];
      }
    }
  }

  /** A key occurs among the filtered elements exactly when some element of s
      passes the filter with that key. */
  lemma {:induction false} FilterMembers<T, K>(s: seq<T>, ok: T -> bool, key: T -> K, k: K)
    ensures k in Keys(Filter(s, ok), key) <==> exists j :: 0 <= j < |s| && ok(s[j]) && key(s[j]) == k
  {
    if s != [] {
      var p := s[..|s| - 1];
      FilterMembers(p, ok, key, k);
      var x := s[|s| - 1];
      var fp := Filter(p, ok);
      var keys := Keys(Filter(s, ok), key);
      if ok(x) {
        assert Filter(s, ok) == fp + [x];
        KeysAppend(fp, x, key);
        assert keys == Keys(fp, key) + {key(x)};
      } else {
        assert Filter(s, ok) == fp;
      }
      if exists j :: 0 <= j < |p| && ok(p[j]) && key(p[j]) == k {
        var j :| 0 <= j < |p| && ok(p[j]) && key(p[j]) == k;
        assert s[j] == p[j];
      }
      if exists j :: 0 <= j < |s| && ok(s[j]) && key(s[j]) == k {
        var j :| 0 <= j < |s| && ok(s[j]) && key(s[j]) == k;
        if j < |p| {
          assert s[j] == p[j];
          assert k in Keys(fp, key);
        } else {
          assert j == |p| && s[j] == x;
        }
        assert k in keys;
      }
    }
  }

  /** The source's `filter`/`findIndex` deduplication keeps exactly the first
      element of each key among the elements that pass `ok`. */
  lemma {:induction false} FilterFirstIndexIsKeepFirst<T, K>(s: seq<T>, ok: T -> bool, key: T -> K, n: nat)
    requires n <= |s|
    ensures FilterFirstIndex(s, ok, key, n) == KeepFirst(Filter(s[..n], ok), key)
  {
    if n > 0 {
      FilterFirstIndexIsKeepFirst(s, ok, key, n - 1);
      var p := s[..n - 1];
      assert s[..n][..n - 1] == p;
      var x := s[n - 1];
      var fp := Filter(p, ok);
      if ok(x) {
        assert Filter(s[..n], ok) == fp + [x];
        assert (fp + [x])[..|fp|] == fp;
        KeepFirstKeys(fp, key);
        FirstIndexBelow(s, ok, key, n);
      } else {
        assert Filter(s[..n], ok) == fp;
      }
    }
  }

  /** The indices of the elements among the first n that satisfy P. */
  function IndicesWhere<T>(s: seq<T>, P: T -> bool, n: nat): (r: seq<nat>)
    requires n <= |s|
    ensures forall k :: 0 <= k < |r| ==> r[k] < n && P(s[r[k]])
  {
    if n == 0 then [] else IndicesWhere(s, P, n - 1) + (if P(s[n - 1]) then [n - 1] else [])
  }

  /** The number of elements among the first n that do not satisfy P. */
  function CountOutside<T>(s: seq<T>, P: T -> bool, n: nat): nat
    requires n <= |s|
  {
    if n == 0 then 0 else CountOutside(s, P, n - 1) + (if P(s[n - 1]) then 0 else 1)
  }

  lemma {:induction false} IndicesWhereMembers<T>(s: seq<T>, P: T -> bool, n: nat)
    requires n <= |s|
    ensures forall k :: k in IndicesWhere(s, P, n) <==> 0 <= k < n && P(s[k])
    ensures forall i, j :: 0 <= i < j < |IndicesWhere(s, P, n)| ==> IndicesWhere(s, P, n)[i] < IndicesWhere(s, P, n)[j]
    ensures |IndicesWhere(s, P, n)| + CountOutside(s, P, n) == n
  {
    if n > 0 {
      IndicesWhereMembers(s, P, n - 1);
      var p := IndicesWhere(s, P, n - 1);
      if P(s[n - 1]) {
        var q := p + [n - 1];
        assert forall k :: k in q <==> k in p || k == n - 1;
        forall i, j | 0 <= i < j < |q| ensures q[i] < q[j] {
          if j == |p| {
            assert q[i] == p[i] && p[i] in p;
          }
        }
      } else {
        assert IndicesWhere(s, P, n) == p + [] == p;
      }
    }
  }
}
