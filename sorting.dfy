/**
 * Array.prototype.sort with a numeric comparator, which JavaScript guarantees to be
 * stable: elements are ordered by a key, largest first, and elements with equal keys
 * keep their input order. An ascending sort is the same sort on the negated key.
 */
module Sorting {
  import opened Seqs

  /** key never increases along s. */
  predicate SortedBy<T>(s: seq<T>, key: T -> int) {
    forall i, j :: 0 <= i < j < |s| ==> key(s[i]) >= key(s[j])
  }

  /** Puts x in front of the first element of r whose key is not larger than its own. */
  function Insert<T(==)>(x: T, r: seq<T>, key: T -> int): (o: seq<T>)
    ensures |o| == |r| + 1
    ensures multiset(o) == multiset(r) + multiset{x}
  {
    if r == [] || key(r[0]) <= key(x) then [x] + r
    else
      assert r == [r[0]] + r[1..];
      [r[0]] + Insert(x, r[1..], key)
  }

  lemma {:induction false} InsertSorted<T>(x: T, r: seq<T>, key: T -> int)
    requires SortedBy(r, key)
    ensures SortedBy(Insert(x, r, key), key)
  {
    if r != [] && key(r[0]) > key(x) {
      var o' := Insert(x, r[1..], key);
      InsertSorted(x, r[1..], key);
      forall j | 0 <= j < |o'| ensures key(o'[j]) <= key(r[0]) {
        assert o'[j] in multiset(r[1..]) + multiset{x};
        if o'[j] != x {
          assert o'[j] in r[1..];
        }
      }
    }
  }

  /** The stable sort by descending key. */
  function SortDesc<T(==)>(s: seq<T>, key: T -> int): (r: seq<T>)
    ensures |r| == |s|
    ensures multiset(r) == multiset(s)
    ensures SortedBy(r, key)
  {
    if s == [] then []
    else
      assert s == [s[0]] + s[1..];
      var rest := SortDesc(s[1..], key);
      InsertSorted(s[0], rest, key);
      Insert(s[0], rest, key)
  }

  /** The elements of s whose key is k, in order. */
  function WithKey<T>(s: seq<T>, key: T -> int, k: int): seq<T> {
    if s == [] then [] else (if key(s[0]) == k then [s[0]] else []) + WithKey(s[1..], key, k)
  }

  /** Inserting x adds it in front of the other elements of its key and leaves every other key's elements alone. */
  lemma {:induction false} InsertWithKey<T>(x: T, r: seq<T>, key: T -> int, k: int)
    ensures WithKey(Insert(x, r, key), key, k) == (if key(x) == k then [x] else []) + WithKey(r, key, k)
  {
    var o := Insert(x, r, key);
    if r == [] || key(r[0]) <= key(x) {
      assert o[0] == x && o[1..] == r;
    } else {
      var o' := Insert(x, r[1..], key);
      InsertWithKey(x, r[1..], key, k);
      assert o[0] == r[0] && o[1..] == o';
      assert WithKey(r, key, k) == (if key(r[0]) == k then [r[0]] else []) + WithKey(r[1..], key, k);
    }
  }

  /** Stability: among elements with equal keys the sort keeps the input order. */
  lemma {:induction false} SortDescStable<T>(s: seq<T>, key: T -> int, k: int)
    ensures WithKey(SortDesc(s, key), key, k) == WithKey(s, key, k)
  {
    if s != [] {
      SortDescStable(s[1..], key, k);
      InsertWithKey(s[0], SortDesc(s[1..], key), key, k);
    }
  }

  /** The elements of one key in a prefix lead those of the whole sequence. */
  lemma {:induction false} WithKeyPrefix<T>(s: seq<T>, key: T -> int, k: int, n: nat)
    requires n <= |s|
    ensures WithKey(s[..n], key, k) <= WithKey(s, key, k)
  {
    if n > 0 {
      assert s[..n][1..] == s[1..][..n - 1];
      WithKeyPrefix(s[1..], key, k, n - 1);
    }
  }

  /**
   * The first n of the sort, as `.sort(...).slice(0, n)` gives them: min(n, |s|) of the
   * input's elements, none more often than in s, each key's elements in input order.
   */
  lemma TakeSorted<T>(s: seq<T>, key: T -> int, n: nat)
    ensures var r := Take(SortDesc(s, key), n);
      && |r| == Min(n, |s|)
      && multiset(r) <= multiset(s)
      && forall k :: WithKey(r, key, k) <= WithKey(s, key, k)
  {
    TakeSortedElements(s, key, n);
    forall k ensures WithKey(Take(SortDesc(s, key), n), key, k) <= WithKey(s, key, k) {
      TakeSortedTies(s, key, n, k);
    }
  }

  lemma TakeSortedElements<T>(s: seq<T>, key: T -> int, n: nat)
    ensures multiset(Take(SortDesc(s, key), n)) <= multiset(s)
  {
    var sorted := SortDesc(s, key);
    var r := Take(sorted, n);
    assert sorted == r + sorted[|r|..];
  }

  lemma TakeSortedTies<T>(s: seq<T>, key: T -> int, n: nat, k: int)
    ensures WithKey(Take(SortDesc(s, key), n), key, k) <= WithKey(s, key, k)
  {
    var sorted := SortDesc(s, key);
    SortDescStable(s, key, k);
    WithKeyPrefix(sorted, key, k, |Take(sorted, n)|);
  }

  /** The sort holds exactly the elements of its input. */
  lemma SortDescHas<T>(s: seq<T>, key: T -> int, x: T)
    ensures x in SortDesc(s, key) <==> x in s
  {
    assert x in SortDesc(s, key) <==> x in multiset(SortDesc(s, key));
    assert x in s <==> x in multiset(s);
  }

  /** After a sort, the first n elements have keys at least as large as every element left out. */
  lemma TakeHoldsLargest<T>(r: seq<T>, key: T -> int, n: nat, x: T)
    requires SortedBy(r, key) && n <= |r|
    requires x in r[n..]
    ensures forall i :: 0 <= i < n ==> key(r[i]) >= key(x)
  {
    var j :| 0 <= j < |r| - n && r[n..][j] == x;
    assert r[n + j] == x;
  }

  /**
   * Cutting a sort at n: an element of the input that the cut leaves out means all
   * n places were taken, each by an element whose key is at least its own.
   */
  lemma CutFromSorted<T>(s: seq<T>, key: T -> int, n: nat, x: T)
    requires x in s && x !in Take(SortDesc(s, key), n)
    ensures n < |s| && |Take(SortDesc(s, key), n)| == n
    ensures forall i :: 0 <= i < n ==> key(SortDesc(s, key)[i]) >= key(x)
  {
    var sorted := SortDesc(s, key);
    var r := Take(sorted, n);
    SortDescHas(s, key, x);
    var k :| 0 <= k < |sorted| && sorted[k] == x;
    assert |r| <= k;
    InSuffix(sorted, n, k);
    TakeHoldsLargest(sorted, key, n, x);
  }

  function Negated(x: int): int {
    -x
  }

  /** [...ids].sort((a, b) => a - b): the ascending sort, as the descending sort of the negated ids. */
  function SortAscending(ids: seq<int>): (r: seq<int>)
    ensures multiset(r) == multiset(ids)
    ensures forall i, j :: 0 <= i < j < |r| ==> r[i] <= r[j]
  {
    var r := SortDesc(ids, Negated);
    assert forall i, j :: 0 <= i < j < |r| ==> Negated(r[i]) >= Negated(r[j]);
    r
  }

  /** Sorting a list of distinct ids ascending makes it strictly ascending. */
  lemma SortedDistinctAscending(src: seq<int>)
    requires Distinct(src)
    ensures var ids := SortAscending(src);
      forall a, b :: 0 <= a < b < |ids| ==> ids[a] < ids[b]
  {
    var ids := SortAscending(src);
    DistinctMultiset(src, ids);
    forall a, b | 0 <= a < b < |ids| ensures ids[a] < ids[b] {
      assert ids[a] <= ids[b] && ids[a] != ids[b];
    }
  }
}
