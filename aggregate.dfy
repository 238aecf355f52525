/**
 * Keyword aggregation in the build script's main pass: the keywords of every
 * plateau, in file order, are merged into one Map from word to the set of
 * plateau ids that produced it and the total weight.
 */
module Aggregation {
  import opened Seqs
  import opened OrderedMaps
  import opened Types
  import opened KeywordExtraction

  /** The running totals of one word: the plateau ids that produced it (a Set, in insertion order) and its total weight. */
  datatype Entry = Entry(ids: seq<int>, count: int)

  /** The keyword Map of one body, as extractKeywords returns it. */
  function KeywordsOf(body: string): (kw: OMap<int>)
    ensures Valid(kw)
  {
    Tally(Increments(body))
  }

  function CountOf(all: OMap<Entry>, w: string): int {
    if w in all.vals then all.vals[w].count else 0
  }

  function IdsOf(all: OMap<Entry>, w: string): seq<int> {
    if w in all.vals then all.vals[w].ids else []
  }

  /** Every word's id list is a set. */
  ghost predicate IdsDistinct(all: OMap<Entry>) {
    forall w :: w in all.vals ==> Distinct(all.vals[w].ids)
  }

  /** entry.plateauIds.add(id); entry.count += c. */
  function Joined(e: Entry, id: int, c: int): (r: Entry)
    ensures forall x :: x in r.ids <==> x in e.ids || x == id
    ensures r.count == e.count + c
  {
    Entry(SetAdd(e.ids, id), e.count + c)
  }

  /** One (word, count) pair of a plateau merged in: the id joins the word's Set and the count is added. */
  function AddWord(all: OMap<Entry>, id: int, w: string, c: int): (r: OMap<Entry>)
    requires Valid(all)
    ensures Valid(r)
  {
    var e := Get(all, w, Entry([], 0));
    Put(all, w, Joined(e, id, c))
  }

  /** All pairs of one plateau merged in, in order. */
  function AddDoc(all: OMap<Entry>, id: int, es: seq<(string, int)>): (r: OMap<Entry>)
    requires Valid(all)
    ensures Valid(r)
  {
    if es == [] then all
    else
      var n := |es| - 1;
      AddWord(AddDoc(all, id, es[..n]), id, es[n].0, es[n].1)
  }

  /** One plateau as the aggregation sees it: its id and its keyword Map. */
  datatype Doc = Doc(id: int, keywords: OMap<int>)

  /** The plateaus' ids and keyword Maps, in file order. */
  function DocsOf(ps: seq<Plateau>): (docs: seq<Doc>)
    ensures |docs| == |ps|
    ensures forall i :: 0 <= i < |ps| ==> docs[i] == Doc(ps[i].id, KeywordsOf(ps[i].body))
    ensures AllValid(docs)
  {
    seq(|ps|, i requires 0 <= i < |ps| => Doc(ps[i].id, KeywordsOf(ps[i].body)))
  }

  ghost predicate AllValid(docs: seq<Doc>) {
    forall i :: 0 <= i < |docs| ==> Valid(docs[i].keywords)
  }

  /** allKeywords after the documents, in order. */
  function Aggregate(docs: seq<Doc>): (r: OMap<Entry>)
    requires AllValid(docs)
    ensures Valid(r)
  {
    if docs == [] then Empty()
    else
      var n := |docs| - 1;
      AddDoc(Aggregate(docs[..n]), docs[n].id, Entries(docs[n].keywords))
  }

  /** The total weight that the documents give to w. */
  function DocWeight(docs: seq<Doc>, w: string): int {
    if docs == [] then 0 else DocWeight(docs[..|docs| - 1], w) + Get(docs[|docs| - 1].keywords, w, 0)
  }

  /** Every document's keywords, one document after the other. */
  function AllWords(docs: seq<Doc>): seq<string> {
    if docs == [] then [] else AllWords(docs[..|docs| - 1]) + docs[|docs| - 1].keywords.keys
  }

  /** One merge step: only w changes; its count grows by c and id joins its ids once. */
  lemma AddWordSpec(all: OMap<Entry>, id: int, w: string, c: int)
    requires Valid(all)
    ensures forall v :: CountOf(AddWord(all, id, w, c), v) == CountOf(all, v) + (if v == w then c else 0)
    ensures forall v :: v in AddWord(all, id, w, c).vals <==> v in all.vals || v == w
    ensures forall v, x :: x in IdsOf(AddWord(all, id, w, c), v) <==> x in IdsOf(all, v) || (x == id && v == w)
  {
  }

  lemma AddWordDistinct(all: OMap<Entry>, id: int, w: string, c: int)
    requires Valid(all) && IdsDistinct(all)
    ensures IdsDistinct(AddWord(all, id, w, c))
  {
  }

  lemma {:induction false} AddDocKeys(all: OMap<Entry>, id: int, es: seq<(string, int)>, seen: seq<string>)
    requires Valid(all) && all.keys == Dedup(seen)
    ensures AddDoc(all, id, es).keys == Dedup(seen + Words(es))
    decreases |es|
  {
    if es == [] {
      assert seen + Words(es) == seen;
    } else {
      var n := |es| - 1;
      var (w, c) := es[n];
      AddDocKeys(all, id, es[..n], seen);
      var prev := AddDoc(all, id, es[..n]);
      var before := seen + Words(es[..n]);
      WordsSnoc(es);
      assert seen + Words(es) == before + [w];
      PutDedup(prev, before, w, Joined(Get(prev, w, Entry([], 0)), id, c));
    }
  }

  lemma {:induction false} AddDocCount(all: OMap<Entry>, id: int, es: seq<(string, int)>, w: string)
    requires Valid(all)
    ensures CountOf(AddDoc(all, id, es), w) == CountOf(all, w) + WeightOf(es, w)
    decreases |es|
  {
    if es != [] {
      var n := |es| - 1;
      AddDocCount(all, id, es[..n], w);
      AddWordSpec(AddDoc(all, id, es[..n]), id, es[n].0, es[n].1);
    }
  }

  lemma {:induction false} AddDocIds(all: OMap<Entry>, id: int, es: seq<(string, int)>, w: string)
    requires Valid(all) && IdsDistinct(all)
    ensures IdsDistinct(AddDoc(all, id, es))
    ensures w in AddDoc(all, id, es).vals <==> w in all.vals || w in Words(es)
    ensures forall x :: x in IdsOf(AddDoc(all, id, es), w) <==> x in IdsOf(all, w) || (x == id && w in Words(es))
    decreases |es|
  {
    if es != [] {
      var n := |es| - 1;
      AddDocIds(all, id, es[..n], w);
      AddWordSpec(AddDoc(all, id, es[..n]), id, es[n].0, es[n].1);
      AddWordDistinct(AddDoc(all, id, es[..n]), id, es[n].0, es[n].1);
      WordsSnoc(es);
    }
  }

  /** WeightOf over the first n entries of a counting Map is the count of w if w is among their keys. */
  lemma {:induction false} EntriesWeight(o: OMap<int>, n: nat, w: string)
    requires Valid(o) && n <= |o.keys|
    ensures WeightOf(Entries(o)[..n], w) == if w in o.keys[..n] then o.vals[w] else 0
  {
    if n > 0 {
      EntriesWeight(o, n - 1, w);
      assert Entries(o)[..n][..n - 1] == Entries(o)[..n - 1];
      assert o.keys[..n] == o.keys[..n - 1] + [o.keys[n - 1]];
    }
  }

  lemma EntriesFacts(o: OMap<int>, w: string)
    requires Valid(o)
    ensures WeightOf(Entries(o), w) == Get(o, w, 0)
    ensures Words(Entries(o)) == o.keys
  {
    EntriesWeight(o, |o.keys|, w);
    assert Entries(o)[..|o.keys|] == Entries(o);
    assert o.keys[..|o.keys|] == o.keys;
  }

  lemma {:induction false} AggregateKeys(docs: seq<Doc>)
    requires AllValid(docs)
    ensures Aggregate(docs).keys == Dedup(AllWords(docs))
  {
    if docs != [] {
      var n := |docs| - 1;
      AggregateKeys(docs[..n]);
      var kw := docs[n].keywords;
      AddDocKeys(Aggregate(docs[..n]), docs[n].id, Entries(kw), AllWords(docs[..n]));
      EntriesFacts(kw, "");
    }
  }

  lemma {:induction false} AggregateCount(docs: seq<Doc>, w: string)
    requires AllValid(docs)
    ensures CountOf(Aggregate(docs), w) == DocWeight(docs, w)
  {
    if docs != [] {
      var n := |docs| - 1;
      AggregateCount(docs[..n], w);
      var kw := docs[n].keywords;
      AddDocCount(Aggregate(docs[..n]), docs[n].id, Entries(kw), w);
      EntriesFacts(kw, w);
    }
  }

  /** Some document with id x produced w. */
  ghost predicate Produced(docs: seq<Doc>, w: string, x: int) {
    exists i :: 0 <= i < |docs| && docs[i].id == x && w in docs[i].keywords.vals
  }

  /** Some document produced w. */
  ghost predicate Seen(docs: seq<Doc>, w: string) {
    exists i :: 0 <= i < |docs| && w in docs[i].keywords.vals
  }

  lemma SeenSnoc(docs: seq<Doc>, w: string)
    requires docs != []
    ensures Seen(docs, w) <==> Seen(docs[..|docs| - 1], w) || w in docs[|docs| - 1].keywords.vals
  {
    var prev := docs[..|docs| - 1];
    if Seen(docs, w) && w !in docs[|docs| - 1].keywords.vals {
      var i :| 0 <= i < |docs| && w in docs[i].keywords.vals;
      assert prev[i] == docs[i];
    }
    if Seen(prev, w) {
      var i :| 0 <= i < |prev| && w in prev[i].keywords.vals;
      assert docs[i] == prev[i];
    }
  }

  lemma ProducedSnoc(docs: seq<Doc>, w: string, x: int)
    requires docs != []
    ensures Produced(docs, w, x)
      <==> Produced(docs[..|docs| - 1], w, x) || (x == docs[|docs| - 1].id && w in docs[|docs| - 1].keywords.vals)
  {
    var prev := docs[..|docs| - 1];
    var d := docs[|docs| - 1];
    if Produced(docs, w, x) && !(x == d.id && w in d.keywords.vals) {
      var i :| 0 <= i < |docs| && docs[i].id == x && w in docs[i].keywords.vals;
      assert prev[i] == docs[i];
    }
    if Produced(prev, w, x) {
      var i :| 0 <= i < |prev| && prev[i].id == x && w in prev[i].keywords.vals;
      assert docs[i] == prev[i];
    }
  }

  lemma {:induction false} AggregateIds(docs: seq<Doc>, w: string)
    requires AllValid(docs)
    ensures IdsDistinct(Aggregate(docs))
    ensures w in Aggregate(docs).vals <==> Seen(docs, w)
    ensures forall x :: x in IdsOf(Aggregate(docs), w) <==> Produced(docs, w, x)
  {
    if docs != [] {
      var n := |docs| - 1;
      var prev := docs[..n];
      AggregateIds(prev, w);
      var d := docs[n];
      AddDocIds(Aggregate(prev), d.id, Entries(d.keywords), w);
      EntriesFacts(d.keywords, w);
      assert w in Words(Entries(d.keywords)) <==> w in d.keywords.vals;
      SeenSnoc(docs, w);
      forall x ensures Produced(docs, w, x) <==> Produced(prev, w, x) || (x == d.id && w in d.keywords.vals) {
        ProducedSnoc(docs, w, x);
      }
    }
  }

  /**
   * What allKeywords holds after the main loop: a word is present iff some plateau
   * produced it, its count is the sum of its per-plateau weights, its ids are exactly
   * the plateaus that produced it, each once, and the words are in first-seen order.
   */
  lemma AggregateSpec(docs: seq<Doc>)
    requires AllValid(docs)
    ensures IdsDistinct(Aggregate(docs))
    ensures Aggregate(docs).keys == Dedup(AllWords(docs))
    ensures forall w :: CountOf(Aggregate(docs), w) == DocWeight(docs, w)
    ensures forall w :: w in Aggregate(docs).vals <==> Seen(docs, w)
    ensures forall w, x :: x in IdsOf(Aggregate(docs), w) <==> Produced(docs, w, x)
  {
    AggregateKeys(docs);
    AggregateIds(docs, "");
    forall w ensures CountOf(Aggregate(docs), w) == DocWeight(docs, w) {
      AggregateCount(docs, w);
    }
    forall w ensures (w in Aggregate(docs).vals <==> Seen(docs, w))
      && forall x :: x in IdsOf(Aggregate(docs), w) <==> Produced(docs, w, x)
    {
      AggregateIds(docs, w);
    }
  }

  /** Creating the empty entry first and then updating it is the same as one merge step. */
  lemma CreateThenUpdate(all: OMap<Entry>, created: OMap<Entry>, id: int, w: string, c: int)
    requires Valid(all)
    requires created == if w !in all.vals then Put(all, w, Entry([], 0)) else all
    ensures Valid(created) && w in created.vals
    ensures Put(created, w, Joined(created.vals[w], id, c)) == AddWord(all, id, w, c)
  {
    if w !in all.vals {
      var v := Entry([id], c);
      assert created.vals[w := v] == all.vals[w := v];
    }
  }

  lemma AddDocStep(all: OMap<Entry>, id: int, es: seq<(string, int)>, j: nat)
    requires Valid(all) && j < |es|
    ensures AddDoc(all, id, es[..j + 1]) == AddWord(AddDoc(all, id, es[..j]), id, es[j].0, es[j].1)
  {
    assert es[..j + 1][..j] == es[..j];
  }

  /** The inner loop of main: one plateau's (word, count) pairs merged into allKeywords. */
  method MergeKeywords(all0: OMap<Entry>, id: int, kw: OMap<int>) returns (all: OMap<Entry>)
    requires Valid(all0) && Valid(kw)
    ensures all == AddDoc(all0, id, Entries(kw))
  {
    all := all0;
    var es := Entries(kw);
    for j := 0 to |es|
      invariant all == AddDoc(all0, id, es[..j])
    {
      AddDocStep(all0, id, es, j);
      ghost var prev := all;
      var word, count := es[j].0, es[j].1;
      if word !in all.vals {
        all := Put(all, word, Entry([], 0));
      }
      CreateThenUpdate(prev, all, id, word, count);
      all := Put(all, word, Joined(all.vals[word], id, count));
    }
    assert es[..|es|] == es;
  }

  /** One more plateau: its keyword map is added to the aggregate of the plateaus before it. */
  lemma AggregateStep(ps: seq<Plateau>, i: nat)
    requires i < |ps|
    ensures Aggregate(DocsOf(ps)[..i + 1]) == AddDoc(Aggregate(DocsOf(ps)[..i]), ps[i].id, Entries(KeywordsOf(ps[i].body)))
  {
    var docs := DocsOf(ps);
    assert docs[..i + 1][..i] == docs[..i];
    assert docs[..i + 1][i] == Doc(ps[i].id, KeywordsOf(ps[i].body));
  }

  /**
   * The aggregation loop of main: for every plateau in file order, every (word, count)
   * of its keywords joins the word's entry, which is created empty on first sight.
   */
  method AggregateKeywords(ps: seq<Plateau>) returns (all: OMap<Entry>)
    ensures all == Aggregate(DocsOf(ps))
    ensures Valid(all) && IdsDistinct(all)
    ensures all.keys == Dedup(AllWords(DocsOf(ps)))
    ensures forall w :: CountOf(all, w) == DocWeight(DocsOf(ps), w)
    ensures forall w :: w in all.vals <==> Seen(DocsOf(ps), w)
    ensures forall w, x :: x in IdsOf(all, w) <==> Produced(DocsOf(ps), w, x)
  {
    ghost var docs := DocsOf(ps);
    all := Empty();
    for i := 0 to |ps|
      invariant all == Aggregate(docs[..i])
    {
      AggregateStep(ps, i);
      var kw := ExtractKeywords(ps[i].body);
      all := MergeKeywords(all, ps[i].id, kw);
    }
    assert docs[..|ps|] == docs;
    AggregateSpec(docs);
  }
}
