/**
 * The keyword table the build script writes: the aggregated words that occur in
 * two or more plateaus or weigh at least 3, most weighty first (ties in
 * first-seen order), at most 300, each with its plateau ids in ascending order.
 */
module Significance {
  import opened Seqs
  import opened Sorting
  import opened OrderedMaps
  import opened Types
  import opened Aggregation

  const MaxKeywords: nat := 300

  /** The retention rule: two or more plateaus, or a total weight of at least 3. */
  predicate IsSignificant(e: (string, Entry)) {
    |e.1.ids| >= 2 || e.1.count >= 3
  }

  function CountKey(e: (string, Entry)): int {
    e.1.count
  }

  /** The retained entries in allKeywords order. */
  function Retained(all: OMap<Entry>): seq<(string, Entry)>
    requires Valid(all)
  {
    Filter(Entries(all), IsSignificant)
  }

  /** The retained entries sorted by count, descending, cut at 300. */
  function Ranked(all: OMap<Entry>): seq<(string, Entry)>
    requires Valid(all)
  {
    Take(SortDesc(Retained(all), CountKey), MaxKeywords)
  }

  function ToKeyword(e: (string, Entry)): Keyword {
    Keyword(e.0, SortAscending(e.1.ids), e.1.count)
  }

  /** significantKeywords mapped to the emitted { word, plateauIds, count } records. */
  function SignificantKeywords(all: OMap<Entry>): (r: seq<Keyword>)
    requires Valid(all)
    ensures |r| == |Ranked(all)|
    ensures forall i :: 0 <= i < |r| ==> r[i] == ToKeyword(Ranked(all)[i])
  {
    var ranked := Ranked(all);
    seq(|ranked|, i requires 0 <= i < |ranked| => ToKeyword(ranked[i]))
  }

  /** Every ranked entry is a retained entry of allKeywords. */
  lemma RankedFromAll(all: OMap<Entry>, i: nat)
    requires Valid(all) && i < |Ranked(all)|
    ensures Ranked(all)[i] in Retained(all)
    ensures Ranked(all)[i].0 in all.vals && Ranked(all)[i].1 == all.vals[Ranked(all)[i].0]
    ensures IsSignificant(Ranked(all)[i])
  {
    var sorted := SortDesc(Retained(all), CountKey);
    var e := Ranked(all)[i];
    assert e == sorted[i];
    SortDescHas(Retained(all), CountKey, e);
    var k :| 0 <= k < |Retained(all)| && Retained(all)[k] == e;
    var m :| 0 <= m < |Entries(all)| && Entries(all)[m] == e;
  }

  /**
   * Each emitted keyword is a retained word with its total count and its ids
   * (the same set, in ascending order); there are at most 300 of them, each word once.
   */
  lemma SignificantKeywordsRetained(all: OMap<Entry>)
    requires Valid(all)
    ensures |SignificantKeywords(all)| <= MaxKeywords
    ensures forall i :: 0 <= i < |SignificantKeywords(all)| ==>
      var k := SignificantKeywords(all)[i];
      && k.word in all.vals
      && (|all.vals[k.word].ids| >= 2 || all.vals[k.word].count >= 3)
      && k.count == all.vals[k.word].count
      && multiset(k.plateauIds) == multiset(all.vals[k.word].ids)
    ensures forall i, j :: 0 <= i < j < |SignificantKeywords(all)| ==> SignificantKeywords(all)[i].word != SignificantKeywords(all)[j].word
  {
    RankedWordsDistinct(all);
    forall i | 0 <= i < |SignificantKeywords(all)| ensures
      var k := SignificantKeywords(all)[i];
      && k.word in all.vals
      && (|all.vals[k.word].ids| >= 2 || all.vals[k.word].count >= 3)
      && k.count == all.vals[k.word].count
      && multiset(k.plateauIds) == multiset(all.vals[k.word].ids)
    {
      RankedFromAll(all, i);
    }
  }

  /** No word is ranked twice. */
  lemma RankedWordsDistinct(all: OMap<Entry>)
    requires Valid(all)
    ensures forall i, j :: 0 <= i < j < |Ranked(all)| ==> Ranked(all)[i].0 != Ranked(all)[j].0
  {
    var es := Entries(all);
    var sorted := SortDesc(Retained(all), CountKey);
    var r := Ranked(all);
    assert Distinct(es) by {
      forall i, j | 0 <= i < j < |es| ensures es[i] != es[j] {
        assert es[i].0 == all.keys[i] && es[j].0 == all.keys[j];
      }
    }
    FilterDistinct(es, IsSignificant);
    DistinctMultiset(Retained(all), sorted);
    forall i, j | 0 <= i < j < |r| ensures r[i].0 != r[j].0 {
      RankedFromAll(all, i);
      RankedFromAll(all, j);
      assert r[i] == sorted[i] && r[j] == sorted[j];
    }
  }

  /** The keywords are ordered by count, largest first. */
  lemma SignificantKeywordsDescending(all: OMap<Entry>)
    requires Valid(all)
    ensures forall i, j :: 0 <= i < j < |SignificantKeywords(all)| ==>
      SignificantKeywords(all)[i].count >= SignificantKeywords(all)[j].count
  {
    var sorted := SortDesc(Retained(all), CountKey);
    assert Ranked(all) == sorted[..|Ranked(all)|];
    forall i, j | 0 <= i < j < |SignificantKeywords(all)|
      ensures SignificantKeywords(all)[i].count >= SignificantKeywords(all)[j].count
    {
      assert CountKey(sorted[i]) >= CountKey(sorted[j]);
    }
  }

  /** With the ids of every word a set, each emitted id list is strictly ascending. */
  lemma SignificantKeywordsIdsAscending(all: OMap<Entry>)
    requires Valid(all) && IdsDistinct(all)
    ensures forall i :: 0 <= i < |SignificantKeywords(all)| ==>
      var ids := SignificantKeywords(all)[i].plateauIds;
      forall a, b :: 0 <= a < b < |ids| ==> ids[a] < ids[b]
  {
    forall i | 0 <= i < |SignificantKeywords(all)|
      ensures var ids := SignificantKeywords(all)[i].plateauIds;
        forall a, b :: 0 <= a < b < |ids| ==> ids[a] < ids[b]
    {
      RankedFromAll(all, i);
      SortedDistinctAscending(Ranked(all)[i].1.ids);
    }
  }

  /**
   * The cap keeps the heaviest words: a retained word that was cut weighs no more
   * than any emitted keyword, and nothing is cut unless all 300 places are taken.
   */
  lemma SignificantKeywordsTop(all: OMap<Entry>, e: (string, Entry))
    requires Valid(all) && e in Retained(all) && e !in Ranked(all)
    ensures |SignificantKeywords(all)| == MaxKeywords
    ensures forall i :: 0 <= i < |SignificantKeywords(all)| ==> SignificantKeywords(all)[i].count >= e.1.count
  {
    var sorted := SortDesc(Retained(all), CountKey);
    CutFromSorted(Retained(all), CountKey, MaxKeywords, e);
    var r := SignificantKeywords(all);
    forall i | 0 <= i < |r| ensures r[i].count >= e.1.count {
      assert r[i].count == CountKey(sorted[i]);
    }
  }

  /**
   * Ties keep first-insertion order: the emitted entries of any one count are the
   * first of the retained entries of that count, in allKeywords order.
   */
  lemma RankedTiesStable(all: OMap<Entry>, k: int)
    requires Valid(all)
    ensures WithKey(Ranked(all), CountKey, k) <= WithKey(Retained(all), CountKey, k)
  {
    var sorted := SortDesc(Retained(all), CountKey);
    SortDescStable(Retained(all), CountKey, k);
    WithKeyPrefix(sorted, CountKey, k, |Ranked(all)|);
    assert Ranked(all) == sorted[..|Ranked(all)|];
  }
}
