/**
 * A JavaScript Map (or plain object) with string keys: its entries, and the
 * order in which the keys were first inserted, which is the order in which
 * iteration, Object.keys and the serialised output visit them.
 */
module OrderedMaps {
  import opened Seqs

  datatype OMap<V> = OMap(keys: seq<string>, vals: map<string, V>)

  /** Every key is listed once, and exactly the keys of vals are listed. */
  ghost predicate Valid<V>(o: OMap<V>) {
    Distinct(o.keys) && forall k :: k in o.vals <==> k in o.keys
  }

  function Empty<V>(): (o: OMap<V>)
    ensures Valid(o) && o.keys == []
  {
    OMap([], map[])
  }

  /** Map.prototype.set: a new key goes to the end of the order, an existing key keeps its place. */
  function Put<V>(o: OMap<V>, k: string, v: V): (r: OMap<V>)
    requires Valid(o)
    ensures Valid(r)
    ensures r.vals == o.vals[k := v]
    ensures r.keys == if k in o.vals then o.keys else o.keys + [k]
  {
    OMap(if k in o.vals then o.keys else o.keys + [k], o.vals[k := v])
  }

  /** A map whose keys are the first occurrences of s keeps that property when s gains k. */
  lemma PutDedup<V>(o: OMap<V>, s: seq<string>, k: string, v: V)
    requires Valid(o) && o.keys == Dedup(s)
    ensures Put(o, k, v).keys == Dedup(s + [k])
  {
    DedupSnoc(s, k);
    DedupHas(s, k);
  }

  /** map.get(k) ?? d. */
  function Get<V>(o: OMap<V>, k: string, d: V): V {
    if k in o.vals then o.vals[k] else d
  }

  /** [...map.entries()]. */
  function Entries<V>(o: OMap<V>): (r: seq<(string, V)>)
    requires Valid(o)
    ensures |r| == |o.keys|
    ensures forall i :: 0 <= i < |r| ==> r[i].0 == o.keys[i] && r[i].1 == o.vals[o.keys[i]]
  {
    seq(|o.keys|, i requires 0 <= i < |o.keys| => (o.keys[i], o.vals[o.keys[i]]))
  }

  /** map.set(k, (map.get(k) || 0) + n), the counting idiom of the build script. */
  function Bump(o: OMap<int>, k: string, n: int): (r: OMap<int>)
    requires Valid(o)
    ensures Valid(r)
  {
    Put(o, k, Get(o, k, 0) + n)
  }

  /** The words of a sequence of (word, value) pairs, such as weighted increments or bigrams. */
  function Words<V>(xs: seq<(string, V)>): (r: seq<string>)
    ensures |r| == |xs| && forall i :: 0 <= i < |xs| ==> r[i] == xs[i].0
  {
    seq(|xs|, i requires 0 <= i < |xs| => xs[i].0)
  }

  lemma WordsSnoc(xs: seq<(string, int)>)
    requires xs != []
    ensures Words(xs) == Words(xs[..|xs| - 1]) + [xs[|xs| - 1].0]
  {
    var a, b := Words(xs), Words(xs[..|xs| - 1]) + [xs[|xs| - 1].0];
    assert |a| == |b|;
    forall i | 0 <= i < |a| ensures a[i] == b[i] {
    }
  }

  /** The total weight that the increments give to w. */
  function WeightOf(xs: seq<(string, int)>, w: string): int {
    if xs == [] then 0
    else WeightOf(xs[..|xs| - 1], w) + (if xs[|xs| - 1].0 == w then xs[|xs| - 1].1 else 0)
  }

  /** A counting Map after applying the increments in order, starting empty. */
  function Tally(xs: seq<(string, int)>): (o: OMap<int>)
    ensures Valid(o)
  {
    if xs == [] then Empty() else Bump(Tally(xs[..|xs| - 1]), xs[|xs| - 1].0, xs[|xs| - 1].1)
  }

  /**
   * Counting in a Map: each word's count is the total of its increments, and the
   * words are ordered by their first increment.
   */
  lemma {:induction false} TallySpec(xs: seq<(string, int)>)
    ensures Tally(xs).keys == Dedup(Words(xs))
    ensures forall w :: Get(Tally(xs), w, 0) == WeightOf(xs, w)
  {
    TallyKeysSpec(xs);
    TallyWeightsSpec(xs);
  }

  lemma {:induction false} TallyKeysSpec(xs: seq<(string, int)>)
    ensures Tally(xs).keys == Dedup(Words(xs))
  {
    if xs != [] {
      var n := |xs| - 1;
      var init := xs[..n];
      var (w, c) := xs[n];
      TallyKeysSpec(init);
      WordsSnoc(xs);
      assert Tally(xs) == Bump(Tally(init), w, c);
      PutDedup(Tally(init), Words(init), w, Get(Tally(init), w, 0) + c);
    }
  }

  lemma {:induction false} TallyWeightsSpec(xs: seq<(string, int)>)
    ensures forall w :: Get(Tally(xs), w, 0) == WeightOf(xs, w)
  {
    if xs != [] {
      var n := |xs| - 1;
      var init := xs[..n];
      var (w, c) := xs[n];
      TallyWeightsSpec(init);
      assert Tally(xs) == Bump(Tally(init), w, c);
      forall v ensures Get(Tally(xs), v, 0) == WeightOf(xs, v) {
        assert WeightOf(xs, v) == WeightOf(init, v) + (if w == v then c else 0);
      }
    }
  }

  /** With positive increments every counted word has a positive count. */
  lemma {:induction false} TallyPositive(xs: seq<(string, int)>)
    requires forall i :: 0 <= i < |xs| ==> xs[i].1 >= 1
    ensures forall w :: w in Tally(xs).vals ==> Tally(xs).vals[w] >= 1
  {
    if xs != [] {
      var n := |xs| - 1;
      TallyPositive(xs[..n]);
    }
  }
}
