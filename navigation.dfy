/**
 * The navigation state of the site (src/composables/usePlateaus.ts): the plateau being
 * read, the trail of visited plateaus, the word-field switches and the poem trail, and
 * the pure lookups the views use (keyword snippet, search, cluster colour, the keywords
 * of the current plateau).
 */
module Navigation {
  import opened Wrappers
  import opened Text
  import opened Seqs
  import opened Sorting
  import opened Types

  // ---- Lookups ----

  /** PLATEAUS.find(p => p.id === id): the first plateau with that id. */
  function FindPlateau(plateaus: seq<Plateau>, id: int): (r: Option<Plateau>)
    ensures r.None? <==> forall i :: 0 <= i < |plateaus| ==> plateaus[i].id != id
    ensures r.Some? ==> exists i :: 0 <= i < |plateaus| && plateaus[i] == r.value && r.value.id == id
                                    && forall j :: 0 <= j < i ==> plateaus[j].id != id
  {
    if plateaus == [] then None
    else if plateaus[0].id == id then Some(plateaus[0])
    else
      var r := FindPlateau(plateaus[1..], id);
      assert forall i :: 1 <= i < |plateaus| ==> plateaus[i] == plateaus[1..][i - 1];
      r
  }

  // ---- Clusters ----

  datatype ClusterInfo = ClusterInfo(id: int, name: string, color: string)

  /** The seven clusters of the corpus with their display colours. */
  const Clusters: seq<ClusterInfo> := [
    ClusterInfo(1, "計算×詩の交差", "#ff6b8a"),
    ClusterInfo(2, "チューリングの人物と思想", "#ffa06c"),
    ClusterInfo(3, "チューリングマシンの構造", "#6ce0ff"),
    ClusterInfo(4, "詩学の展開", "#a78bfa"),
    ClusterInfo(5, "記号操作の哲学", "#6cffc0"),
    ClusterInfo(6, "Code Poetry・ウリポ・esolang", "#ffdb6c"),
    ClusterInfo(7, "横断的プラトー", "#ff8cf0")
  ]

  const White := "#ffffff"

  /**
   * The colour CLUSTER_COLOR_MAP holds for an id. The map is built with
   * Object.fromEntries, so when an id occurs twice the later entry wins.
   */
  function ColorEntry(cs: seq<ClusterInfo>, cluster: int): (r: Option<string>)
    ensures r.None? <==> forall i :: 0 <= i < |cs| ==> cs[i].id != cluster
    ensures r.Some? ==> exists i :: 0 <= i < |cs| && cs[i].id == cluster && cs[i].color == r.value
                                    && forall j :: i < j < |cs| ==> cs[j].id != cluster
  {
    if cs == [] then None
    else if cs[|cs| - 1].id == cluster then Some(cs[|cs| - 1].color)
    else ColorEntry(cs[..|cs| - 1], cluster)
  }

  /** getClusterColor: the cluster's colour, white for an unknown cluster (or an empty colour, which `||` skips too). */
  function ClusterColor(cluster: int): (r: string)
    ensures r != ""
  {
    match ColorEntry(Clusters, cluster)
    case Some(c) => if c != "" then c else White
    case None => White
  }

  /** Every cluster is shown in its own colour, and any other number in white. */
  lemma ClusterColors(cluster: int)
    ensures forall i :: 0 <= i < |Clusters| && Clusters[i].id == cluster ==> ClusterColor(cluster) == Clusters[i].color
    ensures (cluster < 1 || cluster > 7) ==> ClusterColor(cluster) == White
  {
    assert forall i :: 0 <= i < |Clusters| ==> Clusters[i].id == i + 1 && Clusters[i].color != "";
  }

  // ---- Keyword snippet ----

  const Ellipsis := "…"

  /**
   * The excerpt window around a match of length m at idx in a text of length len:
   * Math.max(0, idx - before) to Math.min(len, idx + m + after).
   */
  function Window(len: nat, idx: int, m: nat, before: nat, after: nat): (w: (int, int))
    ensures 0 <= w.0 && w.1 <= len
    ensures 0 <= idx && idx + m <= len ==>
      && w.0 <= idx && idx + m <= w.1
      && idx - w.0 <= before && w.1 - (idx + m) <= after
      && (w.0 == 0 || idx - w.0 == before)
      && (w.1 == len || w.1 - (idx + m) == after)
  {
    (if idx - before > 0 then idx - before else 0, if idx + m + after < len then idx + m + after else len)
  }

  /**
   * The snippet of a body: the text around the first occurrence of word, newlines shown
   * as spaces, with an ellipsis on each side where the body was cut; empty when the body
   * lacks the word.
   */
  function BodySnippet(body: string, word: string): (r: string)
    ensures '\n' !in r
  {
    var idx := IndexOf(body, word);
    if idx < 0 then ""
    else
      var w := Window(|body|, idx, |word|, 30, 40);
      (if w.0 > 0 then Ellipsis else "")
        + NewlinesToSpaces(Substring(body, w.0, w.1))
        + (if w.1 < |body| then Ellipsis else "")
  }

  /** getKeywordSnippet: the snippet of the plateau's body, empty for an unknown plateau. */
  function KeywordSnippet(plateaus: seq<Plateau>, plateauId: int, word: string): (r: string)
    ensures '\n' !in r
  {
    match FindPlateau(plateaus, plateauId)
    case None => ""
    case Some(p) => BodySnippet(p.body, word)
  }

  /** Replacing newlines commutes with cutting out a slice. */
  lemma NewlinesSlice(s: string, a: nat, b: nat)
    requires a <= b <= |s|
    ensures NewlinesToSpaces(s)[a..b] == NewlinesToSpaces(s[a..b])
  {
  }

  /** The cut-out window still shows the word, newlines as spaces. */
  lemma WindowShowsWord(body: string, word: string, i: nat, start: nat, end: nat, pre: string, post: string)
    requires start <= i && i + |word| <= end <= |body| && OccursAt(body, word, i)
    ensures Contains(pre + NewlinesToSpaces(body[start..end]) + post, NewlinesToSpaces(word))
  {
    var mid := NewlinesToSpaces(body[start..end]);
    var r := pre + mid + post;
    var k := |pre| + (i - start);
    NewlinesSlice(body[start..end], i - start, i - start + |word|);
    assert body[start..end][i - start..i - start + |word|] == word;
    assert r[k..k + |word|] == mid[i - start..i - start + |word|];
    assert OccursAt(r, NewlinesToSpaces(word), k);
  }

  /**
   * A body without the word gives an empty snippet. Otherwise the snippet shows the
   * word's first occurrence with at most 30 characters before it and 40 after, as many
   * as the body has up to those bounds, and an ellipsis exactly where it was cut.
   */
  lemma BodySnippetSpec(body: string, word: string)
    ensures !Contains(body, word) ==> BodySnippet(body, word) == ""
    ensures Contains(body, word) ==>
      var i := IndexOf(body, word);
      exists start, end ::
        && 0 <= start <= i && i + |word| <= end <= |body|
        && i - start <= 30 && end - (i + |word|) <= 40
        && (start == 0 || i - start == 30) && (end == |body| || end - (i + |word|) == 40)
        && BodySnippet(body, word)
             == (if start > 0 then Ellipsis else "") + NewlinesToSpaces(body[start..end]) + (if end < |body| then Ellipsis else "")
        && Contains(BodySnippet(body, word), NewlinesToSpaces(word))
  {
    if Contains(body, word) {
      var i := IndexOf(body, word);
      var w := Window(|body|, i, |word|, 30, 40);
      var start, end := w.0, w.1;
      assert Substring(body, start, end) == body[start..end];
      WindowShowsWord(body, word, i, start, end,
                      if start > 0 then Ellipsis else "", if end < |body| then Ellipsis else "");
    }
  }

  // ---- Search ----

  const MinQueryLength := 2
  const MaxSearchResults := 10

  /** The query as it is matched: trimmed, then lower-cased. */
  function Query(query: string, lower: string -> string): string {
    lower(Trim(query))
  }

  /** A plateau matches a lower-cased query when its lower-cased title or body contains it. */
  predicate Matches(p: Plateau, q: string, lower: string -> string) {
    Contains(lower(p.title), q) || Contains(lower(p.body), q)
  }

  function MatchesQuery(q: string, lower: string -> string): Plateau -> bool {
    (p: Plateau) => Matches(p, q, lower)
  }

  /**
   * searchPlateaus: no results for a query shorter than two characters; otherwise the
   * first ten matching plateaus, in corpus order.
   */
  function SearchPlateaus(plateaus: seq<Plateau>, query: string, lower: string -> string): (r: seq<Plateau>)
    ensures |Query(query, lower)| < MinQueryLength ==> r == []
    ensures |r| <= MaxSearchResults
    ensures forall i :: 0 <= i < |r| ==> Matches(r[i], Query(query, lower), lower)
    ensures IsSubsequence(r, plateaus)
    ensures |r| < MaxSearchResults && |Query(query, lower)| >= MinQueryLength ==>
              forall i :: 0 <= i < |plateaus| && Matches(plateaus[i], Query(query, lower), lower) ==> plateaus[i] in r
    ensures |Query(query, lower)| >= MinQueryLength ==>
              var all := Filter(plateaus, MatchesQuery(Query(query, lower), lower));
              |r| == Min(MaxSearchResults, |all|) && r == all[..|r|]
  {
    var q := Query(query, lower);
    if |q| < MinQueryLength then []
    else
      FirstMatches(plateaus, q, lower);
      Take(Filter(plateaus, MatchesQuery(q, lower)), MaxSearchResults)
  }

  /**
   * The first ten matches are matches, in corpus order, and are all of them when fewer
   * than ten: they are the leading ten, or all, of the matches in corpus order.
   */
  lemma FirstMatches(plateaus: seq<Plateau>, q: string, lower: string -> string)
    ensures var r := Take(Filter(plateaus, MatchesQuery(q, lower)), MaxSearchResults);
      && (forall i :: 0 <= i < |r| ==> Matches(r[i], q, lower))
      && IsSubsequence(r, plateaus)
      && (|r| < MaxSearchResults ==>
            forall i :: 0 <= i < |plateaus| && Matches(plateaus[i], q, lower) ==> plateaus[i] in r)
      && var all := Filter(plateaus, MatchesQuery(q, lower));
         |r| == Min(MaxSearchResults, |all|) && r == all[..|r|]
  {
    var p := MatchesQuery(q, lower);
    var all := Filter(plateaus, p);
    var r := Take(all, MaxSearchResults);
    FilterIsSubsequence(plateaus, p);
    SubsequencePrefix(all, plateaus, MaxSearchResults);
    forall i | 0 <= i < |r| ensures Matches(r[i], q, lower) {
      assert r[i] == all[i] && p(all[i]);
    }
    if |r| < MaxSearchResults {
      assert r == all;
      forall i | 0 <= i < |plateaus| && Matches(plateaus[i], q, lower) ensures plateaus[i] in r {
        assert p(plateaus[i]);
      }
    }
  }

  // ---- Current keywords ----

  const MaxCurrentKeywords := 40

  function CountOf(k: Keyword): int {
    k.count
  }

  function Mentions(id: int): Keyword -> bool {
    (k: Keyword) => id in k.plateauIds
  }

  /**
   * currentKeywords: the keywords that list the current plateau, most frequent first
   * (ties in word-field order), at most forty; none when no plateau is open.
   */
  function KeywordsOf(keywords: seq<Keyword>, current: Option<int>): (r: seq<Keyword>)
    ensures current.None? ==> r == []
    ensures |r| <= MaxCurrentKeywords
    ensures SortedBy(r, CountOf)
    ensures forall i :: 0 <= i < |r| ==> r[i] in keywords && current.Some? && current.value in r[i].plateauIds
    ensures current.Some? && |Filter(keywords, Mentions(current.value))| <= MaxCurrentKeywords ==>
              multiset(r) == multiset(Filter(keywords, Mentions(current.value)))
  {
    match current
    case None => []
    case Some(id) =>
      var sorted := SortDesc(Filter(keywords, Mentions(id)), CountOf);
      var r := Take(sorted, MaxCurrentKeywords);
      assert forall i :: 0 <= i < |r| ==> r[i] in Filter(keywords, Mentions(id)) by {
        forall i | 0 <= i < |r| ensures r[i] in Filter(keywords, Mentions(id)) {
          assert r[i] == sorted[i];
          SortDescHas(Filter(keywords, Mentions(id)), CountOf, r[i]);
        }
      }
      r
  }

  /**
   * With a plateau open, the keywords shown are the first forty of the sorted matches:
   * min(40, n) of the n keywords that list it, none repeated beyond its occurrences in
   * the keyword table, and the keywords of any one count in word-field order.
   */
  lemma KeywordsOfSelection(keywords: seq<Keyword>, id: int)
    ensures var r := KeywordsOf(keywords, Some(id));
      var all := Filter(keywords, Mentions(id));
      && |r| == Min(MaxCurrentKeywords, |all|)
      && multiset(r) <= multiset(all)
      && forall k :: WithKey(r, CountOf, k) <= WithKey(all, CountOf, k)
  {
    TakeSorted(Filter(keywords, Mentions(id)), CountOf, MaxCurrentKeywords);
  }

  /** A keyword of the current plateau that is left out is outnumbered by all forty shown. */
  lemma KeywordsOfLargest(keywords: seq<Keyword>, id: int, k: Keyword)
    requires k in keywords && id in k.plateauIds
    requires k !in KeywordsOf(keywords, Some(id))
    ensures |KeywordsOf(keywords, Some(id))| == MaxCurrentKeywords
    ensures forall i :: 0 <= i < MaxCurrentKeywords ==> KeywordsOf(keywords, Some(id))[i].count >= k.count
  {
    var all := Filter(keywords, Mentions(id));
    var sorted := SortDesc(all, CountOf);
    assert k in all;
    CutFromSorted(all, CountOf, MaxCurrentKeywords, k);
    var r := KeywordsOf(keywords, Some(id));
    forall i | 0 <= i < MaxCurrentKeywords ensures r[i].count >= k.count {
      assert r[i] == sorted[i];
    }
  }

  // ---- Trail ----

  const MaxTrail := 50

  ghost predicate NoAdjacentRepeats(t: seq<int>) {
    forall i, j :: 0 <= i < j < |t| && j == i + 1 ==> t[i] != t[j]
  }

  /** What the trail keeps: at most fifty entries, no entry repeating the one before it. */
  ghost predicate ValidTrail(t: seq<int>) {
    |t| <= MaxTrail && NoAdjacentRepeats(t)
  }

  /**
   * The trail after visiting id: unchanged when id is already its last entry, otherwise
   * id is appended and, past fifty entries, the oldest one is dropped.
   */
  function TrailPush(t: seq<int>, id: int): (r: seq<int>)
    ensures |r| > 0 && r[|r| - 1] == id
    ensures |t| > 0 && t[|t| - 1] == id ==> r == t
    ensures ValidTrail(t) ==> ValidTrail(r)
    ensures ValidTrail(t) && (|t| == 0 || t[|t| - 1] != id) ==>
              && |r| == Min(|t| + 1, MaxTrail)
              && r[..|r| - 1] == t[|t| + 1 - |r|..]
  {
    if |t| > 0 && t[|t| - 1] == id then t
    else
      var pushed := t + [id];
      if |pushed| > MaxTrail then pushed[1..] else pushed
  }

  /** The navigation state, one field per module-level ref of the composable. */
  class PlateauState {
    const plateaus: seq<Plateau>
    const keywords: seq<Keyword>
    var currentId: Option<int>
    var trail: seq<int>
    var activeCluster: Option<int>
    var showWordField: bool
    var highlightWord: Option<string>
    var selectedKeyword: Option<string>
    var poemTrail: seq<string>

    /** The trail keeps its shape and the open plateau is always one of the corpus. */
    ghost predicate Valid()
      reads this
    {
      && ValidTrail(trail)
      && (currentId.Some? ==> FindPlateau(plateaus, currentId.value).Some?)
    }

    constructor (plateaus: seq<Plateau>, keywords: seq<Keyword>)
      ensures this.plateaus == plateaus && this.keywords == keywords
      ensures currentId == None && trail == [] && activeCluster == None && !showWordField
      ensures highlightWord == None && selectedKeyword == None && poemTrail == []
      ensures Valid()
    {
      this.plateaus := plateaus;
      this.keywords := keywords;
      currentId := None;
      trail := [];
      activeCluster := None;
      showWordField := false;
      highlightWord := None;
      selectedKeyword := None;
      poemTrail := [];
    }

    /** currentPlateau: the open plateau's record. */
    function CurrentPlateau(): (r: Option<Plateau>)
      reads this
      ensures Valid() ==> (r.Some? <==> currentId.Some?)
      ensures r.Some? ==> r.value in plateaus && currentId == Some(r.value.id)
    {
      match currentId
      case None => None
      case Some(id) => FindPlateau(plateaus, id)
    }

    /** currentKeywords over the field state. */
    function CurrentKeywords(): (r: seq<Keyword>)
      reads this
      ensures currentId.None? ==> r == []
      ensures |r| <= MaxCurrentKeywords
      ensures forall i :: 0 <= i < |r| ==> r[i] in keywords && currentId.Some? && currentId.value in r[i].plateauIds
    {
      KeywordsOf(keywords, currentId)
    }

    /** The in-place trail update of both navigate actions: push, then shift past fifty. */
    method PushTrail(id: int)
      modifies this
      ensures trail == TrailPush(old(trail), id)
      ensures currentId == old(currentId) && activeCluster == old(activeCluster) && showWordField == old(showWordField)
      ensures highlightWord == old(highlightWord) && selectedKeyword == old(selectedKeyword) && poemTrail == old(poemTrail)
    {
      if |trail| == 0 || trail[|trail| - 1] != id {
        trail := trail + [id];
        if |trail| > MaxTrail {
          trail := trail[1..];
        }
      }
    }

    /**
     * navigateTo: an unknown id changes nothing; a known one becomes the open plateau,
     * clears the highlight and the selected keyword, and is pushed on the trail.
     */
    method NavigateTo(id: int)
      requires Valid()
      modifies this
      ensures Valid()
      ensures FindPlateau(plateaus, id).None? ==> unchanged(this)
      ensures FindPlateau(plateaus, id).Some? ==>
        && currentId == Some(id) && highlightWord == None && selectedKeyword == None
        && trail == TrailPush(old(trail), id)
        && activeCluster == old(activeCluster) && showWordField == old(showWordField) && poemTrail == old(poemTrail)
    {
      var p := FindPlateau(plateaus, id);
      if p.None? {
        return;
      }
      currentId := Some(id);
      highlightWord := None;
      selectedKeyword := None;
      PushTrail(id);
    }

    /** navigateWithHighlight: navigateTo, except that the highlight is set to word. */
    method NavigateWithHighlight(id: int, word: string)
      requires Valid()
      modifies this
      ensures Valid()
      ensures FindPlateau(plateaus, id).None? ==> unchanged(this)
      ensures FindPlateau(plateaus, id).Some? ==>
        && currentId == Some(id) && highlightWord == Some(word) && selectedKeyword == None
        && trail == TrailPush(old(trail), id)
        && activeCluster == old(activeCluster) && showWordField == old(showWordField) && poemTrail == old(poemTrail)
    {
      var p := FindPlateau(plateaus, id);
      if p.None? {
        return;
      }
      currentId := Some(id);
      highlightWord := Some(word);
      selectedKeyword := None;
      PushTrail(id);
    }

    method SelectKeyword(word: Option<string>)
      requires Valid()
      modifies this
      ensures Valid()
      ensures selectedKeyword == word
      ensures currentId == old(currentId) && trail == old(trail) && activeCluster == old(activeCluster)
      ensures showWordField == old(showWordField) && highlightWord == old(highlightWord) && poemTrail == old(poemTrail)
    {
      selectedKeyword := word;
    }

    /** addToPoemTrail: exactly one word more at the end, the earlier ones untouched. */
    method AddToPoemTrail(word: string)
      requires Valid()
      modifies this
      ensures Valid()
      ensures poemTrail == old(poemTrail) + [word]
      ensures currentId == old(currentId) && trail == old(trail) && activeCluster == old(activeCluster)
      ensures showWordField == old(showWordField) && highlightWord == old(highlightWord) && selectedKeyword == old(selectedKeyword)
    {
      poemTrail := poemTrail + [word];
    }

    method ClearPoemTrail()
      requires Valid()
      modifies this
      ensures Valid()
      ensures poemTrail == []
      ensures currentId == old(currentId) && trail == old(trail) && activeCluster == old(activeCluster)
      ensures showWordField == old(showWordField) && highlightWord == old(highlightWord) && selectedKeyword == old(selectedKeyword)
    {
      poemTrail := [];
    }

    method ClearTrail()
      requires Valid()
      modifies this
      ensures Valid()
      ensures trail == []
      ensures currentId == old(currentId) && poemTrail == old(poemTrail) && activeCluster == old(activeCluster)
      ensures showWordField == old(showWordField) && highlightWord == old(highlightWord) && selectedKeyword == old(selectedKeyword)
    {
      trail := [];
    }

    method SetClusterFilter(cluster: Option<int>)
      requires Valid()
      modifies this
      ensures Valid()
      ensures activeCluster == cluster
      ensures currentId == old(currentId) && trail == old(trail) && poemTrail == old(poemTrail)
      ensures showWordField == old(showWordField) && highlightWord == old(highlightWord) && selectedKeyword == old(selectedKeyword)
    {
      activeCluster := cluster;
    }

    /** toggleWordField: flips the switch, so two toggles restore it. */
    method ToggleWordField()
      requires Valid()
      modifies this
      ensures Valid()
      ensures showWordField == !old(showWordField)
      ensures currentId == old(currentId) && trail == old(trail) && activeCluster == old(activeCluster)
      ensures poemTrail == old(poemTrail) && highlightWord == old(highlightWord) && selectedKeyword == old(selectedKeyword)
    {
      showWordField := !showWordField;
    }
  }
}
