/**
 * The stand-alone page script (app.js): the undirected link list of the network graph,
 * the trail kept by its navigateTo, the `§n` reference links of a plateau's text, the
 * search result snippets and the test that colours a graph edge as part of the trail.
 */
module App {
  import opened Wrappers
  import opened Text
  import opened Seqs
  import opened Types
  import Navigation
  import Frontmatter

  // ---- Graph links ----

  /** A graph edge between two plateau ids, in the direction it was first met. */
  datatype Link = Link(source: int, target: int)

  /** The dedup key `${min}-${max}`: the unordered pair of endpoints. */
  function Key(l: Link): (int, int) {
    if l.source <= l.target then (l.source, l.target) else (l.target, l.source)
  }

  function Keys(ls: seq<Link>): set<(int, int)> {
    set l | l in ls :: Key(l)
  }

  /** The edges p.linksTo makes, in list order. */
  function EdgesOf(p: Plateau): (r: seq<Link>)
    ensures |r| == |p.linksTo|
  {
    seq(|p.linksTo|, j requires 0 <= j < |p.linksTo| => Link(p.id, p.linksTo[j]))
  }

  /** All linksTo edges, plateau by plateau. */
  function Edges(ps: seq<Plateau>): seq<Link> {
    if ps == [] then [] else Edges(ps[..|ps| - 1]) + EdgesOf(ps[|ps| - 1])
  }

  lemma KeysSnoc(ls: seq<Link>, l: Link)
    ensures Keys(ls + [l]) == Keys(ls) + {Key(l)}
  {
    assert forall x :: x in ls + [l] <==> x in ls || x == l;
  }

  /** The edges are exactly the (id, target) pairs of the linksTo lists. */
  lemma {:induction false} EdgesSpec(ps: seq<Plateau>)
    ensures forall i, j :: 0 <= i < |ps| && 0 <= j < |ps[i].linksTo| ==> Link(ps[i].id, ps[i].linksTo[j]) in Edges(ps)
    ensures forall e :: e in Edges(ps) ==> exists i, j :: 0 <= i < |ps| && 0 <= j < |ps[i].linksTo| && e == Link(ps[i].id, ps[i].linksTo[j])
  {
    if ps != [] {
      var n := |ps| - 1;
      EdgesSpec(ps[..n]);
      forall i, j | 0 <= i < |ps| && 0 <= j < |ps[i].linksTo| ensures Link(ps[i].id, ps[i].linksTo[j]) in Edges(ps) {
        if i < n {
          assert ps[..n][i] == ps[i];
        } else {
          assert EdgesOf(ps[n])[j] == Link(ps[i].id, ps[i].linksTo[j]);
        }
      }
      forall e | e in Edges(ps) ensures exists i, j :: 0 <= i < |ps| && 0 <= j < |ps[i].linksTo| && e == Link(ps[i].id, ps[i].linksTo[j]) {
        if e in Edges(ps[..n]) {
          var i, j :| 0 <= i < n && 0 <= j < |ps[..n][i].linksTo| && e == Link(ps[..n][i].id, ps[..n][i].linksTo[j]);
          assert ps[..n][i] == ps[i];
        } else {
          var j :| 0 <= j < |EdgesOf(ps[n])| && EdgesOf(ps[n])[j] == e;
          assert e == Link(ps[n].id, ps[n].linksTo[j]);
        }
      }
    }
  }

  /** The edges kept by the link-set test: each one whose unordered pair was not met before. */
  function KeepFirst(es: seq<Link>): seq<Link> {
    if es == [] then []
    else
      var r := KeepFirst(es[..|es| - 1]);
      var e := es[|es| - 1];
      if Key(e) in Keys(r) then r else r + [e]
  }

  /**
   * The kept links are edges of the input, no two share an unordered pair, and every
   * edge's pair is represented.
   */
  lemma {:induction false} KeepFirstSpec(es: seq<Link>)
    ensures forall l :: l in KeepFirst(es) ==> l in es
    ensures forall i, j :: 0 <= i < j < |KeepFirst(es)| ==> Key(KeepFirst(es)[i]) != Key(KeepFirst(es)[j])
    ensures forall e :: e in es ==> Key(e) in Keys(KeepFirst(es))
  {
    if es != [] {
      var prefix, e := es[..|es| - 1], es[|es| - 1];
      KeepFirstSpec(prefix);
      assert es == prefix + [e];
      var r := KeepFirst(prefix);
      if Key(e) !in Keys(r) {
        KeysSnoc(r, e);
        forall i | 0 <= i < |r| ensures Key(r[i]) != Key(e) {
          assert r[i] in r;
        }
      }
    }
  }

  lemma KeepFirstSnoc(es: seq<Link>, e: Link)
    ensures KeepFirst(es + [e]) == if Key(e) in Keys(KeepFirst(es)) then KeepFirst(es) else KeepFirst(es) + [e]
  {
    assert (es + [e])[..|es|] == es;
  }

  /** Each kept link is the first edge with its unordered pair: later ones in either direction are dropped. */
  lemma {:induction false} KeepFirstIsFirst(es: seq<Link>, i: nat)
    requires i < |KeepFirst(es)|
    ensures exists k :: 0 <= k < |es| && es[k] == KeepFirst(es)[i]
                        && forall j :: 0 <= j < k ==> Key(es[j]) != Key(es[k])
  {
    var n := |es| - 1;
    var prefix := es[..n];
    var r := KeepFirst(prefix);
    assert es == prefix + [es[n]];
    KeepFirstSnoc(prefix, es[n]);
    if i < |r| {
      KeepFirstIsFirst(prefix, i);
      var k :| 0 <= k < |prefix| && prefix[k] == r[i] && forall j :: 0 <= j < k ==> Key(prefix[j]) != Key(prefix[k]);
      assert es[k] == prefix[k];
    } else {
      assert KeepFirst(es)[i] == es[n];
      KeepFirstSpec(prefix);
      forall j | 0 <= j < n ensures Key(es[j]) != Key(es[n]) {
        assert es[j] in prefix;
      }
    }
  }

  /** One turn of the inner loop: the edge's pair is looked up in the link set and added when new. */
  method AddLink(links: seq<Link>, linkSet: set<(int, int)>, ghost before: seq<Link>, source: int, targetId: int)
    returns (links': seq<Link>, linkSet': set<(int, int)>)
    requires links == KeepFirst(before) && linkSet == Keys(links)
    ensures links' == KeepFirst(before + [Link(source, targetId)]) && linkSet' == Keys(links')
  {
    KeepFirstSnoc(before, Link(source, targetId));
    var key := if source <= targetId then (source, targetId) else (targetId, source);
    links', linkSet' := links, linkSet;
    if key !in linkSet {
      KeysSnoc(links, Link(source, targetId));
      linkSet' := linkSet + {key};
      links' := links + [Link(source, targetId)];
    }
  }

  lemma EdgesStep(before: seq<Link>, p: Plateau, j: nat)
    requires j < |p.linksTo|
    ensures before + EdgesOf(p)[..j + 1] == (before + EdgesOf(p)[..j]) + [Link(p.id, p.linksTo[j])]
  {
    assert EdgesOf(p)[..j + 1] == EdgesOf(p)[..j] + [Link(p.id, p.linksTo[j])];
  }

  /** The inner loop over p.linksTo. */
  method AddPlateauLinks(links: seq<Link>, linkSet: set<(int, int)>, ghost before: seq<Link>, p: Plateau)
    returns (links': seq<Link>, linkSet': set<(int, int)>)
    requires links == KeepFirst(before) && linkSet == Keys(links)
    ensures links' == KeepFirst(before + EdgesOf(p)) && linkSet' == Keys(links')
  {
    links', linkSet' := links, linkSet;
    assert before + EdgesOf(p)[..0] == before;
    for j := 0 to |p.linksTo|
      invariant links' == KeepFirst(before + EdgesOf(p)[..j])
      invariant linkSet' == Keys(links')
    {
      EdgesStep(before, p, j);
      links', linkSet' := AddLink(links', linkSet', before + EdgesOf(p)[..j], p.id, p.linksTo[j]);
    }
    assert EdgesOf(p)[..|p.linksTo|] == EdgesOf(p);
  }

  /** The links of the network graph: every linksTo edge once, whichever direction came first. */
  method BuildLinks(plateaus: seq<Plateau>) returns (links: seq<Link>)
    ensures links == KeepFirst(Edges(plateaus))
  {
    links := [];
    var linkSet: set<(int, int)> := {};
    for i := 0 to |plateaus|
      invariant links == KeepFirst(Edges(plateaus[..i]))
      invariant linkSet == Keys(links)
    {
      assert plateaus[..i + 1][..i] == plateaus[..i];
      links, linkSet := AddPlateauLinks(links, linkSet, Edges(plateaus[..i]), plateaus[i]);
    }
    assert plateaus[..|plateaus|] == plateaus;
  }

  // ---- Trail ----

  /** The page state the navigation touches: the open plateau and the trail. */
  class AppState {
    const plateaus: seq<Plateau>
    var currentPlateauId: Option<int>
    var trail: seq<int>

    ghost predicate Valid()
      reads this
    {
      && Navigation.ValidTrail(trail)
      && (currentPlateauId.Some? ==> Navigation.FindPlateau(plateaus, currentPlateauId.value).Some?)
    }

    constructor (plateaus: seq<Plateau>)
      ensures this.plateaus == plateaus && currentPlateauId == None && trail == []
      ensures Valid()
    {
      this.plateaus := plateaus;
      currentPlateauId := None;
      trail := [];
    }

    /**
     * navigateTo, its state part: an unknown id returns at once; a known one becomes the
     * open plateau and is pushed on the trail unless it is already the last entry, the
     * oldest entry being shifted out past fifty.
     */
    method NavigateTo(id: int)
      requires Valid()
      modifies this
      ensures Valid()
      ensures Navigation.FindPlateau(plateaus, id).None? ==> unchanged(this)
      ensures Navigation.FindPlateau(plateaus, id).Some? ==>
                currentPlateauId == Some(id) && trail == Navigation.TrailPush(old(trail), id)
    {
      var p := Navigation.FindPlateau(plateaus, id);
      if p.None? {
        return;
      }
      currentPlateauId := Some(id);
      if |trail| == 0 || trail[|trail| - 1] != id {
        trail := trail + [id];
        if |trail| > Navigation.MaxTrail {
          trail := trail[1..];
        }
      }
    }

    /** The clear-trail button. */
    method ClearTrail()
      requires Valid()
      modifies this
      ensures Valid()
      ensures trail == [] && currentPlateauId == old(currentPlateauId)
    {
      trail := [];
    }

    /** The trail-edge class of a graph link: some step of the trail runs along it, either way. */
    method IsTrailEdge(link: Link) returns (b: bool)
      ensures b <==> TrailEdge(link, trail)
    {
      var i := 0;
      while i < |trail| - 1
        invariant 0 <= i
        invariant forall k :: 0 <= k < i && k + 1 < |trail| ==> !StepAlong(link, trail, k)
      {
        var a, c := trail[i], trail[i + 1];
        if (link.source == a && link.target == c) || (link.source == c && link.target == a) {
          assert StepAlong(link, trail, i);
          return true;
        }
        i := i + 1;
      }
      return false;
    }
  }

  /** The trail step from position k to k + 1 joins the link's endpoints, in either direction. */
  predicate StepAlong(link: Link, trail: seq<int>, k: int)
    requires 0 <= k && k + 1 < |trail|
  {
    (link.source == trail[k] && link.target == trail[k + 1]) || (link.source == trail[k + 1] && link.target == trail[k])
  }

  ghost predicate TrailEdge(link: Link, trail: seq<int>) {
    exists k :: 0 <= k && k + 1 < |trail| && StepAlong(link, trail, k)
  }

  /**
   * Moving from plateau a to a different plateau b makes the graph edge between them a
   * trail edge, whichever way the link was stored.
   */
  lemma NavigationMarksEdge(t: seq<int>, a: int, b: int)
    requires Navigation.ValidTrail(t) && |t| > 0 && t[|t| - 1] == a && a != b
    ensures TrailEdge(Link(a, b), Navigation.TrailPush(t, b))
    ensures TrailEdge(Link(b, a), Navigation.TrailPush(t, b))
  {
    var r := Navigation.TrailPush(t, b);
    var n := |r|;
    assert n >= 2;
    assert r[..n - 1][n - 2] == t[|t| + 1 - n..][n - 2];
    assert StepAlong(Link(a, b), r, n - 2);
    assert StepAlong(Link(b, a), r, n - 2);
  }

  // ---- Reference links ----

  const MinRefId := 1
  const MaxRefId := 35

  /** The anchor a `§n` reference becomes: it carries the plateau id and wraps the matched text. */
  function RefAnchor(refId: nat, text: string): (r: string)
    ensures StartsWith(r, "<a class=\"ref-link\" data-id=\"" + Frontmatter.Decimal(refId) + "\"")
    ensures EndsWith(r, text + "</a>")
    ensures |r| > |text|
  {
    var head := "<a class=\"ref-link\" data-id=\"" + Frontmatter.Decimal(refId) + "\"";
    var r := head + " title=\"§" + Frontmatter.Decimal(refId) + "\">" + text + "</a>";
    assert r[..|head|] == head;
    assert r[|r| - |text + "</a>"|..] == text + "</a>";
    r
  }

  /**
   * The replacement of one `§n` match, where num is the matched digit run: an anchor to
   * plateau n when 1 <= n <= 35, and the match unchanged otherwise.
   */
  function RefLink(matched: string, num: string): (r: string)
    requires num != [] && Frontmatter.AllDigits(num)
    ensures r == matched <==> !(MinRefId <= Frontmatter.DigitsValue(num) <= MaxRefId)
    ensures MinRefId <= Frontmatter.DigitsValue(num) <= MaxRefId ==> r == RefAnchor(Frontmatter.DigitsValue(num), matched)
  {
    var refId := Frontmatter.DigitsValue(num);
    if MinRefId <= refId <= MaxRefId then RefAnchor(refId, matched) else matched
  }

  /** The anchor's data-id is the number the digits denote, leading zeros dropped. */
  lemma RefLinkTarget(matched: string, num: string)
    requires num != [] && Frontmatter.AllDigits(num)
    requires MinRefId <= Frontmatter.DigitsValue(num) <= MaxRefId
    ensures exists d :: Frontmatter.AllDigits(d) && Frontmatter.DigitsValue(d) == Frontmatter.DigitsValue(num)
                        && StartsWith(RefLink(matched, num), "<a class=\"ref-link\" data-id=\"" + d + "\"")
  {
    var v := Frontmatter.DigitsValue(num);
    Frontmatter.DecimalValue(v);
    assert StartsWith(RefLink(matched, num), "<a class=\"ref-link\" data-id=\"" + Frontmatter.Decimal(v) + "\"");
  }

  // ---- Search ----

  /**
   * The snippet of a search result: the body around the first match of the query in the
   * lower-cased body, at most 20 characters before and 40 after, newlines as spaces,
   * between two ellipses; empty when the lower-cased body does not contain the query.
   */
  function SearchSnippet(body: string, q: string, lower: string -> string): (r: string)
    ensures '\n' !in r
    ensures r == "" <==> !Contains(lower(body), q)
    ensures r != "" ==> StartsWith(r, Navigation.Ellipsis) && EndsWith(r, Navigation.Ellipsis)
  {
    var idx := IndexOf(lower(body), q);
    if idx < 0 then ""
    else
      var w := Navigation.Window(|body|, idx, |q|, 20, 40);
      var r := Navigation.Ellipsis + NewlinesToSpaces(Substring(body, w.0, w.1)) + Navigation.Ellipsis;
      assert r[..1] == Navigation.Ellipsis && r[|r| - 1..] == Navigation.Ellipsis;
      r
  }

  /**
   * When lower-casing keeps the body's length, the snippet cuts the window
   * [max(0, i - 20), min(len, i + |q| + 40)) around the match at i out of the original body.
   */
  lemma SearchSnippetWindow(body: string, q: string, lower: string -> string)
    requires |lower(body)| == |body| && Contains(lower(body), q)
    ensures
      var i := IndexOf(lower(body), q);
      exists start, end ::
        && 0 <= start <= i && i + |q| <= end <= |body|
        && i - start <= 20 && end - (i + |q|) <= 40
        && (start == 0 || i - start == 20) && (end == |body| || end - (i + |q|) == 40)
        && SearchSnippet(body, q, lower) == Navigation.Ellipsis + NewlinesToSpaces(body[start..end]) + Navigation.Ellipsis
  {
    var i := IndexOf(lower(body), q);
    var w := Navigation.Window(|body|, i, |q|, 20, 40);
    assert Substring(body, w.0, w.1) == body[w.0..w.1];
  }

  /**
   * The search list: the plateaus searchPlateaus would return (the filter and the cap of
   * ten are the same expression in both scripts), each with its snippet.
   */
  function SearchItems(plateaus: seq<Plateau>, query: string, lower: string -> string): (r: seq<(Plateau, string)>)
    ensures |Navigation.Query(query, lower)| < Navigation.MinQueryLength ==> r == []
    ensures |r| <= Navigation.MaxSearchResults
    ensures forall i :: 0 <= i < |r| ==>
              && Navigation.Matches(r[i].0, Navigation.Query(query, lower), lower)
              && r[i].0 in plateaus
              && r[i].1 == SearchSnippet(r[i].0.body, Navigation.Query(query, lower), lower)
    ensures |r| == |Navigation.SearchPlateaus(plateaus, query, lower)|
    ensures forall i :: 0 <= i < |r| ==> r[i].0 == Navigation.SearchPlateaus(plateaus, query, lower)[i]
  {
    var q := Navigation.Query(query, lower);
    var results := Navigation.SearchPlateaus(plateaus, query, lower);
    SubsequenceMembers(results, plateaus);
    seq(|results|, i requires 0 <= i < |results| => (results[i], SearchSnippet(results[i].body, q, lower)))
  }
  /** A query of two or more characters that some plateau matches lists at least one result. */
  lemma SearchFindsMatch(plateaus: seq<Plateau>, query: string, lower: string -> string, k: nat)
    requires |Navigation.Query(query, lower)| >= Navigation.MinQueryLength
    requires k < |plateaus| && Navigation.Matches(plateaus[k], Navigation.Query(query, lower), lower)
    ensures SearchItems(plateaus, query, lower) != []
  {
    var results := Navigation.SearchPlateaus(plateaus, query, lower);
    assert |results| == Navigation.MaxSearchResults || plateaus[k] in results;
  }


  lemma {:induction false} SubsequenceMembers<T>(r: seq<T>, s: seq<T>)
    requires IsSubsequence(r, s)
    ensures forall x :: x in r ==> x in s
    decreases |s|
  {
    if r != [] {
      if r[0] == s[0] && IsSubsequence(r[1..], s[1..]) {
        SubsequenceMembers(r[1..], s[1..]);
        assert forall x :: x in r ==> x == r[0] || x in r[1..];
      } else {
        SubsequenceMembers(r, s[1..]);
      }
    }
  }
}
