/** Sequence helpers shared by the build passes and the runtime: counting, deduplication, filtering. */
module Seqs {

  predicate Distinct<T(==)>(s: seq<T>) {
    forall i, j :: 0 <= i < j < |s| ==> s[i] != s[j]
  }

  function Min(a: int, b: int): int {
    if a <= b then a else b
  }

  /** Array.prototype.slice(0, n). */
  function Take<T>(s: seq<T>, n: nat): (r: seq<T>)
    ensures |r| == Min(n, |s|)
    ensures r == s[..|r|]
  {
    if |s| <= n then s else s[..n]
  }

  /** An element at or after position n is in the suffix from n. */
  lemma InSuffix<T>(s: seq<T>, n: nat, k: nat)
    requires n <= k < |s|
    ensures s[k] in s[n..]
  {
    assert s[n..][k - n] == s[k];
  }

  /** An element of a non-empty sequence is in its prefix or is its last element. */
  lemma InSnoc<T>(s: seq<T>, x: T)
    requires s != []
    ensures x in s <==> x in s[..|s| - 1] || x == s[|s| - 1]
  {
    assert s == s[..|s| - 1] + [s[|s| - 1]];
  }

  /** The number of occurrences of x in s. */
  function Count<T(==)>(s: seq<T>, x: T): nat {
    if s == [] then 0 else (if s[0] == x then 1 else 0) + Count(s[1..], x)
  }

  lemma {:induction false} CountAppend<T>(a: seq<T>, b: seq<T>, x: T)
    ensures Count(a + b, x) == Count(a, x) + Count(b, x)
  {
    if a == [] {
      assert a + b == b;
    } else {
      assert (a + b)[1..] == a[1..] + b;
      CountAppend(a[1..], b, x);
    }
  }

  lemma {:induction false} CountPositive<T>(s: seq<T>, x: T)
    ensures Count(s, x) > 0 <==> x in s
  {
    if s != [] {
      CountPositive(s[1..], x);
    }
  }

  /** Set.prototype.add on a Set kept in insertion order. */
  function SetAdd<T(==,!new)>(ids: seq<T>, id: T): (r: seq<T>)
    ensures forall x :: x in r <==> x in ids || x == id
    ensures Distinct(ids) ==> Distinct(r)
  {
    if id in ids then ids else ids + [id]
  }

  /** The elements of s in order of first appearance, each once: [...new Set(s)]. */
  function Dedup<T(==)>(s: seq<T>): (r: seq<T>)
    ensures Distinct(r)
    ensures forall i :: 0 <= i < |r| ==> r[i] in s
    ensures forall i :: 0 <= i < |s| ==> s[i] in r
    ensures |r| <= |s|
  {
    if s == [] then []
    else
      var d := Dedup(s[..|s| - 1]);
      assert forall i :: 0 <= i < |s| - 1 ==> s[i] in s[..|s| - 1];
      if s[|s| - 1] in d then d else d + [s[|s| - 1]]
  }

  lemma DedupHas<T>(s: seq<T>, x: T)
    ensures x in Dedup(s) <==> x in s
  {
    if x in Dedup(s) {
      var i :| 0 <= i < |Dedup(s)| && Dedup(s)[i] == x;
    }
    if x in s {
      var i :| 0 <= i < |s| && s[i] == x;
    }
  }

  /**
   * Deduplication keeps first-appearance order: deduplicating any prefix of s
   * gives a prefix of the deduplicated s.
   */
  lemma DedupSnoc<T>(s: seq<T>, x: T)
    ensures Dedup(s + [x]) == if x in s then Dedup(s) else Dedup(s) + [x]
  {
    assert (s + [x])[..|s|] == s;
    DedupHas(s, x);
  }

  /**
   * Deduplication keeps the order of first use: wherever the later of two kept
   * elements occurs in s, the earlier one has already occurred.
   */
  lemma DedupFirstUse<T>(s: seq<T>, i: nat, j: nat, k: nat)
    requires i < j < |Dedup(s)| && k < |s| && s[k] == Dedup(s)[j]
    ensures Dedup(s)[i] in s[..k]
  {
    KeptThrough(s, i, j, k);
    InEarlier(s, k, Dedup(s)[i]);
  }

  /** An element kept before the one s[k] is kept as occurs in s[..k + 1], and is not s[k]. */
  lemma KeptThrough<T>(s: seq<T>, i: nat, j: nat, k: nat)
    requires i < j < |Dedup(s)| && k < |s| && s[k] == Dedup(s)[j]
    ensures Dedup(s)[i] in s[..k + 1] && Dedup(s)[i] != s[k]
  {
    DedupPrefix(s, k + 1);
    KeptBefore(s, k, j);
    assert Dedup(s)[i] == Dedup(s[..k + 1])[i];
  }

  /** An element of s[..k + 1] other than s[k] is in s[..k]. */
  lemma InEarlier<T>(s: seq<T>, k: nat, x: T)
    requires k < |s| && x in s[..k + 1] && x != s[k]
    ensures x in s[..k]
  {
    var m :| 0 <= m < k + 1 && s[..k + 1][m] == x;
    assert s[..k][m] == x;
  }

  /** The prefix through position k already keeps the element s[k] is kept as. */
  lemma KeptBefore<T>(s: seq<T>, k: nat, j: nat)
    requires k < |s| && j < |Dedup(s)| && s[k] == Dedup(s)[j]
    requires Dedup(s[..k + 1]) <= Dedup(s)
    ensures j < |Dedup(s[..k + 1])|
  {
    var p := s[..k + 1];
    var d := Dedup(p);
    assert p[k] == s[k];
    DedupHas(p, s[k]);
    var m :| 0 <= m < |d| && d[m] == s[k];
    assert Dedup(s)[m] == Dedup(s)[j];
  }

  lemma {:induction false} DedupPrefix<T>(s: seq<T>, k: nat)
    requires k <= |s|
    ensures Dedup(s[..k]) <= Dedup(s)
    decreases |s|
  {
    if k < |s| {
      assert s[..k] == s[..|s| - 1][..k];
      DedupPrefix(s[..|s| - 1], k);
    } else {
      assert s[..k] == s;
    }
  }

  /** Array.prototype.filter. */
  function Filter<T>(s: seq<T>, p: T -> bool): (r: seq<T>)
    ensures |r| <= |s|
    ensures forall i :: 0 <= i < |r| ==> p(r[i])
    ensures forall i :: 0 <= i < |s| && p(s[i]) ==> s[i] in r
    ensures forall i :: 0 <= i < |r| ==> r[i] in s
  {
    if s == [] then [] else (if p(s[0]) then [s[0]] else []) + Filter(s[1..], p)
  }

  lemma {:induction false} FilterAppend<T>(a: seq<T>, b: seq<T>, p: T -> bool)
    ensures Filter(a + b, p) == Filter(a, p) + Filter(b, p)
  {
    if a == [] {
      assert a + b == b;
    } else {
      assert (a + b)[1..] == a[1..] + b;
      FilterAppend(a[1..], b, p);
    }
  }

  /** Filtering a sequence without repeats leaves none. */
  lemma {:induction false} FilterDistinct<T>(s: seq<T>, p: T -> bool)
    requires Distinct(s)
    ensures Distinct(Filter(s, p))
  {
    if s != [] {
      FilterDistinct(s[1..], p);
      var rest := Filter(s[1..], p);
      assert s[0] !in s[1..];
      assert s[0] !in rest;
      if p(s[0]) {
        var r := Filter(s, p);
        assert r == [s[0]] + rest;
        forall i, j | 0 <= i < j < |r| ensures r[i] != r[j] {
          if i == 0 {
            assert r[j] == rest[j - 1];
          } else {
            assert r[i] == rest[i - 1] && r[j] == rest[j - 1];
          }
        }
      }
    }
  }

  /** r is s with some elements left out, the rest in their order. */
  predicate IsSubsequence<T(==)>(r: seq<T>, s: seq<T>) {
    if r == [] then true
    else if s == [] then false
    else (r[0] == s[0] && IsSubsequence(r[1..], s[1..])) || IsSubsequence(r, s[1..])
  }

  lemma {:induction false} FilterIsSubsequence<T>(s: seq<T>, p: T -> bool)
    ensures IsSubsequence(Filter(s, p), s)
  {
    if s != [] {
      FilterIsSubsequence(s[1..], p);
      if p(s[0]) {
        assert Filter(s, p)[1..] == Filter(s[1..], p);
      } else {
        assert Filter(s, p) == Filter(s[1..], p);
      }
    }
  }

  lemma {:induction false} SubsequencePrefix<T>(r: seq<T>, s: seq<T>, n: nat)
    requires IsSubsequence(r, s)
    ensures IsSubsequence(r[..Min(n, |r|)], s)
    decreases |s|
  {
    if r != [] && n > 0 {
      if r[0] == s[0] && IsSubsequence(r[1..], s[1..]) {
        SubsequencePrefix(r[1..], s[1..], n - 1);
        assert r[..Min(n, |r|)][1..] == r[1..][..Min(n - 1, |r| - 1)];
      } else {
        SubsequencePrefix(r, s[1..], n);
      }
    }
  }

  function Sum(s: seq<int>): int {
    if s == [] then 0 else s[0] + Sum(s[1..])
  }

  lemma {:induction false} SumAppend(a: seq<int>, b: seq<int>)
    ensures Sum(a + b) == Sum(a) + Sum(b)
  {
    if a == [] {
      assert a + b == b;
    } else {
      assert (a + b)[1..] == a[1..] + b;
      SumAppend(a[1..], b);
    }
  }

  /** A permutation of a sequence without repeats has no repeats. */
  lemma DistinctMultiset<T>(s: seq<T>, r: seq<T>)
    requires Distinct(s) && multiset(r) == multiset(s)
    ensures Distinct(r)
  {
    forall i, j | 0 <= i < j < |r| ensures r[i] != r[j] {
      if r[i] == r[j] {
        MultiplicityAtLeastTwo(r, i, j);
        MultiplicityAtMostOne(s, r[i]);
      }
    }
  }

  lemma MultiplicityAtLeastTwo<T>(r: seq<T>, i: nat, j: nat)
    requires i < j < |r| && r[i] == r[j]
    ensures multiset(r)[r[i]] >= 2
  {
    assert r == r[..i] + [r[i]] + r[i + 1..j] + [r[j]] + r[j + 1..];
  }

  lemma {:induction false} MultiplicityAtMostOne<T>(s: seq<T>, x: T)
    requires Distinct(s)
    ensures multiset(s)[x] <= 1
  {
    if s != [] {
      var n := |s| - 1;
      assert s == s[..n] + [s[n]];
      MultiplicityAtMostOne(s[..n], x);
      if s[n] == x {
        assert x !in s[..n];
      }
    }
  }
}
