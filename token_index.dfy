/**
 * The reverse index of the build script (scripts/build-data.js): every content
 * word the tokenizer finds in a plateau's cleaned body, mapped to the ids of the
 * plateaus it occurs in, in ascending order.
 */
module TokenIndex {
  import opened Text
  import opened Seqs
  import opened OrderedMaps
  import opened Types
  import opened Sorting
  import opened Flow

  const ContentPos: set<string> := {"名詞", "動詞", "形容詞", "副詞"}
  const ExcludeSub: set<string> := {"非自立", "接尾", "数", "代名詞"}
  const StopTokens: set<string> := {
    "する", "いる", "ある", "なる", "れる", "られる", "せる", "させる", "ない", "よう",
    "こと", "もの", "ところ", "ため", "それ", "これ", "どの", "この", "その"
  }

  /** The class [一-鿿ァ-ヶA-Za-z]: a CJK ideograph, a katakana or a Latin letter. */
  predicate IsIndexChar(c: char) {
    ('\U{4E00}' <= c <= '\U{9FFF}') || ('\U{30A1}' <= c <= '\U{30F6}') || ('A' <= c <= 'Z') || ('a' <= c <= 'z')
  }

  /** The regular expression test: some character of s is in the class. */
  function HasIndexChar(s: string): (b: bool)
    ensures b <==> exists i :: 0 <= i < |s| && IsIndexChar(s[i])
  {
    if s == [] then false
    else
      assert forall i :: 1 <= i < |s| ==> s[i] == s[1..][i - 1];
      IsIndexChar(s[0]) || HasIndexChar(s[1..])
  }

  /** The filters of the index loop, in the order the source applies them. */
  predicate Indexable(m: Morpheme) {
    && m.surface != [] && Trim(m.surface) != [] && |m.surface| >= 2
    && m.pos in ContentPos && m.subPos !in ExcludeSub
    && HasIndexChar(m.surface)
    && m.surface !in StopTokens
  }

  /** The body as it goes to the tokenizer: references and brackets removed, not trimmed. */
  function CleanBody(body: string): string {
    DropBrackets(StripRefs(body))
  }

  /** The surfaces of the indexable morphemes, in order. */
  function IndexedSurfaces(ms: seq<Morpheme>): seq<string> {
    if ms == [] then []
    else
      var n := |ms| - 1;
      IndexedSurfaces(ms[..n]) + (if Indexable(ms[n]) then [ms[n].surface] else [])
  }

  /** The words a plateau contributes. */
  function PlateauWords(p: Plateau, tokenize: string -> seq<Morpheme>): seq<string> {
    IndexedSurfaces(tokenize(CleanBody(p.body)))
  }

  /** Each word of a plateau paired with its id. */
  function Tagged(ws: seq<string>, id: int): (r: seq<(string, int)>)
    ensures |r| == |ws| && forall i :: 0 <= i < |ws| ==> r[i] == (ws[i], id)
  {
    seq(|ws|, i requires 0 <= i < |ws| => (ws[i], id))
  }

  /** Every (word, id) occurrence of the corpus, in the order the loops meet them. */
  function Occurrences(ps: seq<Plateau>, tokenize: string -> seq<Morpheme>): seq<(string, int)> {
    if ps == [] then []
    else
      var n := |ps| - 1;
      Occurrences(ps[..n], tokenize) + Tagged(PlateauWords(ps[n], tokenize), ps[n].id)
  }

  /** The word occurs in the indexed words of a plateau with this id. */
  ghost predicate Occurs(ps: seq<Plateau>, tokenize: string -> seq<Morpheme>, w: string, x: int) {
    exists i :: 0 <= i < |ps| && ps[i].id == x && w in PlateauWords(ps[i], tokenize)
  }

  // ---- The Map from word to Set of ids ----

  type Index = OMap<seq<int>>

  ghost predicate IdsAreSets(ix: Index) {
    forall w :: w in ix.vals ==> Distinct(ix.vals[w])
  }

  /** `tokenToPlateau.get(w).add(id)`, the Set created first if w is new. */
  function AddOccurrence(ix: Index, w: string, id: int): (r: Index)
    requires Valid(ix)
    ensures Valid(r)
  {
    Put(ix, w, SetAdd(Get(ix, w, []), id))
  }

  /** The Map after the occurrences in order, starting empty. */
  function Collect(os: seq<(string, int)>): (r: Index)
    ensures Valid(r)
  {
    if os == [] then Empty() else AddOccurrence(Collect(os[..|os| - 1]), os[|os| - 1].0, os[|os| - 1].1)
  }

  // ---- Properties ----

  /** The words of the Map are the words of the occurrences, in order of first occurrence. */
  lemma {:induction false} CollectKeys(os: seq<(string, int)>)
    ensures Collect(os).keys == Dedup(Words(os))
  {
    if os != [] {
      var n := |os| - 1;
      CollectKeys(os[..n]);
      WordsSnoc(os);
      DedupSnoc(Words(os[..n]), os[n].0);
      DedupHas(Words(os[..n]), os[n].0);
    }
  }

  lemma GetAddOccurrence(ix: Index, w: string, v: string, id: int)
    requires Valid(ix)
    ensures Get(AddOccurrence(ix, v, id), w, []) == if w == v then SetAdd(Get(ix, v, []), id) else Get(ix, w, [])
  {
  }

  /** The ids under a word are the ids it occurs with. */
  lemma {:induction false} CollectIds(os: seq<(string, int)>, w: string, x: int)
    ensures x in Get(Collect(os), w, []) <==> (w, x) in os
  {
    if os != [] {
      var n := |os| - 1;
      var init := os[..n];
      CollectIds(init, w, x);
      GetAddOccurrence(Collect(init), w, os[n].0, os[n].1);
      assert Collect(os) == AddOccurrence(Collect(init), os[n].0, os[n].1);
      InSnoc(os, (w, x));
      if w == os[n].0 {
        assert x in Get(Collect(os), w, []) <==> x in Get(Collect(init), w, []) || x == os[n].1;
      } else {
        assert Get(Collect(os), w, []) == Get(Collect(init), w, []);
      }
    }
  }

  /** No id is listed twice under a word. */
  lemma {:induction false} CollectSets(os: seq<(string, int)>)
    ensures IdsAreSets(Collect(os))
  {
    if os != [] {
      CollectSets(os[..|os| - 1]);
    }
  }

  /** The occurrences are exactly the (word, id) pairs of the plateaus. */
  lemma {:induction false} OccurrencesSpec(ps: seq<Plateau>, tokenize: string -> seq<Morpheme>, w: string, x: int)
    ensures (w, x) in Occurrences(ps, tokenize) <==> Occurs(ps, tokenize, w, x)
  {
    if ps != [] {
      var n := |ps| - 1;
      var init := ps[..n];
      OccurrencesSpec(init, tokenize, w, x);
      var tagged := Tagged(PlateauWords(ps[n], tokenize), ps[n].id);
      assert Occurrences(ps, tokenize) == Occurrences(init, tokenize) + tagged;
      if (w, x) in tagged {
        var k :| 0 <= k < |tagged| && tagged[k] == (w, x);
        assert PlateauWords(ps[n], tokenize)[k] == w;
      }
      if Occurs(init, tokenize, w, x) {
        var i :| 0 <= i < |init| && init[i].id == x && w in PlateauWords(init[i], tokenize);
        assert ps[i] == init[i];
      }
      if Occurs(ps, tokenize, w, x) {
        var i :| 0 <= i < |ps| && ps[i].id == x && w in PlateauWords(ps[i], tokenize);
        if i < n {
          assert init[i] == ps[i];
        } else {
          var k :| 0 <= k < |PlateauWords(ps[n], tokenize)| && PlateauWords(ps[n], tokenize)[k] == w;
          assert tagged[k] == (w, x);
        }
      }
    }
  }

  // ---- The loops ----

  lemma CollectSnoc(os: seq<(string, int)>, w: string, id: int)
    ensures Collect(os + [(w, id)]) == AddOccurrence(Collect(os), w, id)
  {
    assert (os + [(w, id)])[..|os|] == os;
  }

  lemma SurfacesStep(done: seq<(string, int)>, ms: seq<Morpheme>, i: nat, id: int)
    requires i < |ms|
    ensures done + Tagged(IndexedSurfaces(ms[..i + 1]), id) ==
      done + Tagged(IndexedSurfaces(ms[..i]), id) + (if Indexable(ms[i]) then [(ms[i].surface, id)] else [])
  {
    var s := IndexedSurfaces(ms[..i]);
    var keep := Indexable(ms[i]);
    var extra := if keep then [ms[i].surface] else [];
    assert ms[..i + 1][..i] == ms[..i];
    assert IndexedSurfaces(ms[..i + 1]) == s + extra;
    TaggedAppend(s, extra, id);
    var te := Tagged(extra, id);
    assert te == if keep then [(ms[i].surface, id)] else [];
    var t0 := Tagged(s, id);
    assert done + (t0 + te) == done + t0 + te;
  }

  lemma TaggedAppend(a: seq<string>, b: seq<string>, id: int)
    ensures Tagged(a + b, id) == Tagged(a, id) + Tagged(b, id)
  {
    var l, r := Tagged(a + b, id), Tagged(a, id) + Tagged(b, id);
    assert |l| == |r|;
    forall k | 0 <= k < |l| ensures l[k] == r[k] {
      if k < |a| {
        assert (a + b)[k] == a[k];
      } else {
        assert (a + b)[k] == b[k - |a|];
      }
    }
  }

  /** `if (!has(w)) set(w, new Set())` followed by `get(w).add(id)`. */
  lemma CreateThenAdd(ix: Index, created: Index, w: string, id: int)
    requires Valid(ix)
    requires created == if w !in ix.vals then Put(ix, w, []) else ix
    ensures Valid(created) && w in created.vals
    ensures Put(created, w, SetAdd(created.vals[w], id)) == AddOccurrence(ix, w, id)
  {
    if w !in ix.vals {
      var v := SetAdd([], id);
      assert created.vals[w := v] == ix.vals[w := v];
    }
  }

  /** One turn of the morpheme loop: the filters in the source's order, then the Set update. */
  method IndexMorpheme(ix0: Index, id: int, m: Morpheme, ghost before: seq<(string, int)>) returns (ix: Index)
    requires ix0 == Collect(before)
    ensures ix == Collect(before + if Indexable(m) then [(m.surface, id)] else [])
  {
    ix := ix0;
    assert before + [] == before;
    var surface, pos, subPos := m.surface, m.pos, m.subPos;
    if surface == [] || Trim(surface) == [] || |surface| < 2 {
      return;
    }
    if pos !in ContentPos || subPos in ExcludeSub {
      return;
    }
    if !HasIndexChar(surface) {
      return;
    }
    if surface in StopTokens {
      return;
    }
    CollectSnoc(before, surface, id);
    ghost var prev := ix;
    if surface !in ix.vals {
      ix := Put(ix, surface, []);
    }
    CreateThenAdd(prev, ix, surface, id);
    ix := Put(ix, surface, SetAdd(ix.vals[surface], id));
  }

  /** The morpheme loop of one plateau. */
  method IndexPlateau(ix0: Index, id: int, ms: seq<Morpheme>, ghost done: seq<(string, int)>) returns (ix: Index)
    requires ix0 == Collect(done)
    ensures ix == Collect(done + Tagged(IndexedSurfaces(ms), id))
  {
    ix := ix0;
    assert done + Tagged(IndexedSurfaces(ms[..0]), id) == done;
    for i := 0 to |ms|
      invariant ix == Collect(done + Tagged(IndexedSurfaces(ms[..i]), id))
    {
      SurfacesStep(done, ms, i, id);
      ix := IndexMorpheme(ix, id, ms[i], done + Tagged(IndexedSurfaces(ms[..i]), id));
    }
    assert ms[..|ms|] == ms;
  }

  lemma OccurrencesStep(ps: seq<Plateau>, tokenize: string -> seq<Morpheme>, j: nat)
    requires j < |ps|
    ensures Occurrences(ps[..j + 1], tokenize) ==
      Occurrences(ps[..j], tokenize) + Tagged(IndexedSurfaces(tokenize(CleanBody(ps[j].body))), ps[j].id)
  {
    assert ps[..j + 1][..j] == ps[..j];
  }

  /** The index loop of main over all plateaus. */
  method BuildIndex(ps: seq<Plateau>, tokenize: string -> seq<Morpheme>) returns (ix: Index)
    ensures ix == Collect(Occurrences(ps, tokenize))
  {
    ix := Empty();
    for j := 0 to |ps|
      invariant ix == Collect(Occurrences(ps[..j], tokenize))
    {
      OccurrencesStep(ps, tokenize, j);
      var clean := CleanBody(ps[j].body);
      var morphemes := tokenize(clean);
      ix := IndexPlateau(ix, ps[j].id, morphemes, Occurrences(ps[..j], tokenize));
    }
    assert ps[..|ps|] == ps;
  }

  ghost predicate KeysIn(ix: Index, ks: seq<string>) {
    forall i :: 0 <= i < |ks| ==> ks[i] in ix.vals
  }

  /** The serialised object after visiting the words ks in order, each with its ids sorted ascending. */
  function SortedIds(ix: Index, ks: seq<string>): (r: Index)
    requires KeysIn(ix, ks)
    ensures Valid(r)
  {
    if ks == [] then Empty()
    else
      var n := |ks| - 1;
      Put(SortedIds(ix, ks[..n]), ks[n], SortAscending(ix.vals[ks[n]]))
  }

  /** Visiting distinct words keeps their order and gives each its ids, sorted. */
  lemma {:induction false} SortedIdsSpec(ix: Index, ks: seq<string>)
    requires KeysIn(ix, ks) && Distinct(ks)
    ensures SortedIds(ix, ks).keys == ks
    ensures forall w :: w in SortedIds(ix, ks).vals ==> w in ix.vals && SortedIds(ix, ks).vals[w] == SortAscending(ix.vals[w])
  {
    if ks != [] {
      var n := |ks| - 1;
      SortedIdsSpec(ix, ks[..n]);
      assert ks[n] !in ks[..n];
      assert ks[..n] + [ks[n]] == ks;
    }
  }

  lemma SortedIdsSnoc(ix: Index, ks: seq<string>, i: nat)
    requires KeysIn(ix, ks) && i < |ks|
    ensures KeysIn(ix, ks[..i]) && KeysIn(ix, ks[..i + 1])
    ensures SortedIds(ix, ks[..i + 1]) == Put(SortedIds(ix, ks[..i]), ks[i], SortAscending(ix.vals[ks[i]]))
  {
    assert ks[..i + 1][..i] == ks[..i];
  }

  /** The conversion loop: each word of the Map, in its order, with its ids sorted; and the word count. */
  method SerializeIndex(ix: Index) returns (out: Index, indexCount: nat)
    requires Valid(ix)
    ensures KeysIn(ix, ix.keys) && out == SortedIds(ix, ix.keys)
    ensures out.keys == ix.keys && indexCount == |out.keys|
  {
    out, indexCount := Empty(), 0;
    var keys := ix.keys;
    for i := 0 to |keys|
      invariant KeysIn(ix, keys[..i])
      invariant out == SortedIds(ix, keys[..i]) && indexCount == i
    {
      SortedIdsSnoc(ix, keys, i);
      var word := keys[i];
      out := Put(out, word, SortAscending(ix.vals[word]));
      indexCount := indexCount + 1;
    }
    assert keys[..|keys|] == keys;
    SortedIdsSpec(ix, keys);
  }

  /** TOKEN_INDEX as the build emits it for the plateaus ps. */
  function TokenIndexOf(ps: seq<Plateau>, tokenize: string -> seq<Morpheme>): (r: Index)
    ensures Valid(r)
  {
    var ix := Collect(Occurrences(ps, tokenize));
    SortedIds(ix, ix.keys)
  }

  /** The words of TOKEN_INDEX are the indexed words of the corpus, in order of first occurrence. */
  lemma TokenIndexKeys(ps: seq<Plateau>, tokenize: string -> seq<Morpheme>)
    ensures TokenIndexOf(ps, tokenize).keys == Dedup(Words(Occurrences(ps, tokenize)))
  {
    var ix := Collect(Occurrences(ps, tokenize));
    SortedIdsSpec(ix, ix.keys);
    CollectKeys(Occurrences(ps, tokenize));
  }

  /** A word's list holds exactly the ids of the plateaus whose indexed words include it. */
  lemma TokenIndexIds(ps: seq<Plateau>, tokenize: string -> seq<Morpheme>, w: string, x: int)
    requires w in TokenIndexOf(ps, tokenize).vals
    ensures x in TokenIndexOf(ps, tokenize).vals[w] <==> Occurs(ps, tokenize, w, x)
  {
    var os := Occurrences(ps, tokenize);
    var ix := Collect(os);
    SortedIdsSpec(ix, ix.keys);
    CollectIds(os, w, x);
    OccurrencesSpec(ps, tokenize, w, x);
    var list := TokenIndexOf(ps, tokenize).vals[w];
    assert multiset(list) == multiset(ix.vals[w]);
    assert x in list <==> x in multiset(list);
  }

  /** A word's list is strictly ascending: sorted, and no id twice. */
  lemma TokenIndexAscending(ps: seq<Plateau>, tokenize: string -> seq<Morpheme>, w: string)
    requires w in TokenIndexOf(ps, tokenize).vals
    ensures var list := TokenIndexOf(ps, tokenize).vals[w];
      forall a, b :: 0 <= a < b < |list| ==> list[a] < list[b]
  {
    var os := Occurrences(ps, tokenize);
    var ix := Collect(os);
    SortedIdsSpec(ix, ix.keys);
    CollectSets(os);
    var list := TokenIndexOf(ps, tokenize).vals[w];
    assert list == SortAscending(ix.vals[w]);
    SortedDistinctAscending(ix.vals[w]);
  }

  /** The index pass of main: build the Map, then serialise it. */
  method BuildTokenIndex(ps: seq<Plateau>, tokenize: string -> seq<Morpheme>) returns (index: Index, indexCount: nat)
    ensures index == TokenIndexOf(ps, tokenize) && indexCount == |index.keys|
  {
    var ix := BuildIndex(ps, tokenize);
    index, indexCount := SerializeIndex(ix);
  }
}
