/**
 * The plateau pass of the build script's main: the plateaus are sorted by id, and
 * each plateau's linkedFrom is derived from every other plateau's linksTo.
 */
module Backlinks {
  import opened Seqs
  import opened Sorting
  import opened Types

  function IdKey(p: Plateau): int {
    -p.id
  }

  predicate IdsAscending(ps: seq<Plateau>) {
    forall i, j :: 0 <= i < j < |ps| ==> ps[i].id <= ps[j].id
  }

  /** plateaus.sort((a, b) => a.id - b.id): ascending ids, equal ids in file order. */
  function SortById(ps: seq<Plateau>): (r: seq<Plateau>)
    ensures multiset(r) == multiset(ps)
    ensures IdsAscending(r)
  {
    var r := SortDesc(ps, IdKey);
    assert forall i, j :: 0 <= i < j < |r| ==> IdKey(r[i]) >= IdKey(r[j]);
    r
  }

  /** Some plateau among the first n has id t. */
  ghost predicate KnownBefore(ps: seq<Plateau>, n: nat, t: int) {
    exists k :: 0 <= k < n && k < |ps| && ps[k].id == t
  }

  /** Some plateau among the first n has id q and links to t. */
  ghost predicate LinksBefore(ps: seq<Plateau>, n: nat, q: int, t: int) {
    exists k :: 0 <= k < n && k < |ps| && ps[k].id == q && t in ps[k].linksTo
  }

  predicate StrictlyAscending(s: seq<int>) {
    forall a, b :: 0 <= a < b < |s| ==> s[a] < s[b]
  }

  lemma LinksStep(ps: seq<Plateau>, i: nat, q: int, t: int)
    requires i < |ps|
    ensures LinksBefore(ps, i + 1, q, t) <==> LinksBefore(ps, i, q, t) || (q == ps[i].id && t in ps[i].linksTo)
  {
  }

  lemma KnownStep(ps: seq<Plateau>, i: nat, t: int)
    requires i < |ps|
    ensures KnownBefore(ps, i + 1, t) <==> KnownBefore(ps, i, t) || t == ps[i].id
  {
  }

  /** The first pass: every id gets an empty list. */
  method EmptyBacklinks(ps: seq<Plateau>) returns (lf: map<int, seq<int>>)
    ensures forall t :: t in lf <==> KnownBefore(ps, |ps|, t)
    ensures forall t :: t in lf ==> lf[t] == []
  {
    lf := map[];
    for i := 0 to |ps|
      invariant forall t :: t in lf <==> KnownBefore(ps, i, t)
      invariant forall t :: t in lf ==> lf[t] == []
    {
      forall t ensures KnownBefore(ps, i + 1, t) <==> KnownBefore(ps, i, t) || t == ps[i].id {
        KnownStep(ps, i, t);
      }
      lf := lf[ps[i].id := []];
    }
  }

  /**
   * One plateau's visit in the backlink pass: p.id joins the list of every known
   * target it links to, once. When asc holds, every listed id is at most p.id and
   * the lists stay strictly ascending.
   */
  method AddBacklinksFrom(lf0: map<int, seq<int>>, p: Plateau, ghost asc: bool) returns (lf: map<int, seq<int>>)
    requires forall t :: t in lf0 ==> Distinct(lf0[t])
    requires asc ==> forall t :: t in lf0 ==> StrictlyAscending(lf0[t])
    requires asc ==> forall t, x :: t in lf0 && x in lf0[t] ==> x <= p.id
    ensures lf.Keys == lf0.Keys
    ensures forall t, q :: t in lf ==> (q in lf[t] <==> q in lf0[t] || (q == p.id && t in p.linksTo))
    ensures forall t :: t in lf ==> Distinct(lf[t])
    ensures asc ==> forall t :: t in lf ==> StrictlyAscending(lf[t])
    ensures asc ==> forall t, x :: t in lf && x in lf[t] ==> x <= p.id
  {
    lf := lf0;
    for j := 0 to |p.linksTo|
      invariant lf.Keys == lf0.Keys
      invariant forall t, q :: t in lf ==> (q in lf[t] <==> q in lf0[t] || (q == p.id && t in p.linksTo[..j]))
      invariant forall t :: t in lf ==> Distinct(lf[t])
      invariant asc ==> forall t :: t in lf ==> StrictlyAscending(lf[t])
      invariant asc ==> forall t, x :: t in lf && x in lf[t] ==> x <= p.id
    {
      var target := p.linksTo[j];
      assert p.linksTo[..j + 1] == p.linksTo[..j] + [target];
      if target in lf && p.id !in lf[target] {
        var arr := lf[target];
        if asc {
          assert forall a :: 0 <= a < |arr| ==> arr[a] < p.id by {
            forall a | 0 <= a < |arr| ensures arr[a] < p.id {
              assert arr[a] in lf[target];
            }
          }
        }
        lf := lf[target := arr + [p.id]];
      }
    }
    assert p.linksTo[..|p.linksTo|] == p.linksTo;
  }

  /**
   * The backlink pass: q is in linkedFrom(t) iff t is a known id and the plateau q
   * links to t; each list holds each id once, and is strictly ascending when the
   * plateaus are in ascending id order. Targets that are not known ids are ignored.
   */
  method DeriveBacklinks(ps: seq<Plateau>) returns (lf: map<int, seq<int>>)
    ensures forall t :: t in lf <==> KnownBefore(ps, |ps|, t)
    ensures forall t, q :: t in lf ==> (q in lf[t] <==> LinksBefore(ps, |ps|, q, t))
    ensures forall t :: t in lf ==> Distinct(lf[t])
    ensures IdsAscending(ps) ==> forall t :: t in lf ==> StrictlyAscending(lf[t])
  {
    lf := EmptyBacklinks(ps);
    ghost var known := lf.Keys;
    for i := 0 to |ps|
      invariant lf.Keys == known
      invariant forall t, q :: t in lf ==> (q in lf[t] <==> LinksBefore(ps, i, q, t))
      invariant forall t :: t in lf ==> Distinct(lf[t])
      invariant IdsAscending(ps) ==> forall t :: t in lf ==> StrictlyAscending(lf[t])
      invariant IdsAscending(ps) && i < |ps| ==> forall t, x :: t in lf && x in lf[t] ==> x <= ps[i].id
    {
      var p := ps[i];
      lf := AddBacklinksFrom(lf, p, IdsAscending(ps));
      forall t, q ensures LinksBefore(ps, i + 1, q, t) <==> LinksBefore(ps, i, q, t) || (q == p.id && t in p.linksTo) {
        LinksStep(ps, i, q, t);
      }
      if IdsAscending(ps) && i + 1 < |ps| {
        forall t, x | t in lf && x in lf[t] ensures x <= ps[i + 1].id {
          assert x <= p.id;
        }
      }
    }
  }

  /** Each plateau gets linkedFromMap.get(p.id) || []. */
  function Attach(ps: seq<Plateau>, lf: map<int, seq<int>>): (r: seq<Plateau>)
    ensures |r| == |ps|
    ensures forall i :: 0 <= i < |ps| ==> r[i] == ps[i].(linkedFrom := if ps[i].id in lf then lf[ps[i].id] else [])
  {
    seq(|ps|, i requires 0 <= i < |ps| => ps[i].(linkedFrom := if ps[i].id in lf then lf[ps[i].id] else []))
  }

  /**
   * The plateau list the build script emits: the input plateaus (up to the derived
   * linkedFrom) sorted by id, and each linkedFrom lists, once each and ascending,
   * exactly the ids of the plateaus that link to it.
   */
  method CompilePlateaus(ps: seq<Plateau>) returns (out: seq<Plateau>)
    ensures |out| == |ps|
    ensures IdsAscending(out)
    ensures forall i :: 0 <= i < |out| ==> out[i].(linkedFrom := []) == SortById(ps)[i].(linkedFrom := [])
    ensures forall i, q :: 0 <= i < |out| ==>
      (q in out[i].linkedFrom <==> exists k :: 0 <= k < |out| && out[k].id == q && out[i].id in out[k].linksTo)
    ensures forall i :: 0 <= i < |out| ==> StrictlyAscending(out[i].linkedFrom)
  {
    var sorted := SortById(ps);
    var lf := DeriveBacklinks(sorted);
    out := Attach(sorted, lf);
    forall i | 0 <= i < |out| ensures sorted[i].id in lf {
      assert KnownBefore(sorted, |sorted|, sorted[i].id);
    }
    forall i, q | 0 <= i < |out|
      ensures q in out[i].linkedFrom <==> exists k :: 0 <= k < |out| && out[k].id == q && out[i].id in out[k].linksTo
    {
      if LinksBefore(sorted, |sorted|, q, out[i].id) {
        var k :| 0 <= k < |sorted| && sorted[k].id == q && out[i].id in sorted[k].linksTo;
        assert out[k].id == q && out[i].id in out[k].linksTo;
      }
      if exists k :: 0 <= k < |out| && out[k].id == q && out[i].id in out[k].linksTo {
        var k :| 0 <= k < |out| && out[k].id == q && out[i].id in out[k].linksTo;
        assert sorted[k].id == q && out[i].id in sorted[k].linksTo;
      }
    }
  }
}
