/**
 * Keyword extraction (extractKeywords in scripts/build-data.js): three passes over
 * a plateau body, each adding weight to a per-word count kept in a Map.
 *   1. every 【word】 marker adds 3 to the trimmed word;
 *   2. every run of 2 to 8 kanji, kana or `ー` characters that is not a stop word adds 1;
 *   3. every capitalised Latin term of four or more letters adds 1.
 * The three regular expressions are modelled by scanners that reproduce their
 * left-to-right, non-overlapping, greedy matching.
 */
module KeywordExtraction {
  import opened Text
  import opened Seqs
  import opened OrderedMaps

  // ---- Pass 1: /【([^】]+)】/g ----

  /** The first position at or after i that holds '】', or |s|. */
  function NextClose(s: string, i: nat): (j: nat)
    requires i <= |s|
    ensures i <= j <= |s|
    ensures j < |s| ==> s[j] == '】'
    ensures forall k :: i <= k < j ==> s[k] != '】'
    decreases |s| - i
  {
    if i == |s| || s[i] == '】' then i else NextClose(s, i + 1)
  }

  /** The captured texts of the bracket markers in s[i..], left to right. */
  function BracketSpans(s: string, i: nat): (r: seq<string>)
    requires i <= |s|
    ensures forall k :: 0 <= k < |r| ==> |r[k]| >= 1 && '】' !in r[k]
    decreases |s| - i
  {
    if i == |s| then []
    else if s[i] == '【' && i + 1 < |s| && s[i + 1] != '】' && NextClose(s, i + 1) < |s| then
      var j := NextClose(s, i + 1);
      [s[i + 1..j]] + BracketSpans(s, j + 1)
    else BracketSpans(s, i + 1)
  }

  // ---- Pass 2: /[一-鿿ぁ-ゖァ-ヶー]{2,8}/g ----

  predicate IsKanaKanji(c: char) {
    || ('\U{4E00}' <= c <= '\U{9FFF}')
    || ('\U{3041}' <= c <= '\U{3096}')
    || ('\U{30A1}' <= c <= '\U{30F6}')
    || c == 'ー'
  }

  /** The length of the run of characters satisfying p that starts at i. */
  function RunLength(s: string, i: nat, p: char -> bool): (n: nat)
    requires i <= |s|
    ensures i + n <= |s|
    ensures forall k :: i <= k < i + n ==> p(s[k])
    ensures i + n < |s| ==> !p(s[i + n])
    decreases |s| - i
  {
    if i == |s| || !p(s[i]) then 0 else 1 + RunLength(s, i + 1, p)
  }

  /** The matches of the kanji/kana pattern in s[i..]: a run is cut into pieces of eight, a last piece of one is skipped. */
  function KanaRuns(s: string, i: nat): (r: seq<string>)
    requires i <= |s|
    ensures forall k :: 0 <= k < |r| ==> 2 <= |r[k]| <= 8
    ensures forall k, c :: 0 <= k < |r| && 0 <= c < |r[k]| ==> IsKanaKanji(r[k][c])
    decreases |s| - i
  {
    if i == |s| then []
    else
      var n := RunLength(s, i, IsKanaKanji);
      if n >= 2 then
        var m := Min(n, 8);
        [s[i..i + m]] + KanaRuns(s, i + m)
      else KanaRuns(s, i + 1)
  }

  const StopWords: set<string> := {
    "ことが", "として", "という", "それは", "これは", "ここで", "しかし",
    "つまり", "すなわち", "あるいは", "ものである", "ことである", "である",
    "において", "について", "よって", "ための", "による", "それが",
    "ないこと", "あること", "していた", "されている", "している", "したこと",
    "こととは", "ことは", "ことの", "ことを", "ものは", "ものを", "ものの",
    "したのは", "されたの", "するのは", "するもの", "したもの",
    "ここには", "そこには", "それを", "これを", "これが"
  }

  /** A kanji/kana match counts unless it is a stop word. */
  predicate IsCandidate(w: string) {
    |w| >= 2 && w !in StopWords
  }

  // ---- Pass 3: /[A-Z][a-zA-Z]{3,}/g ----

  predicate IsUpper(c: char) {
    'A' <= c <= 'Z'
  }

  predicate IsLetter(c: char) {
    IsUpper(c) || 'a' <= c <= 'z'
  }

  /** The capitalised Latin terms in s[i..]: a capital followed by all the letters after it, at least three. */
  function LatinTerms(s: string, i: nat): (r: seq<string>)
    requires i <= |s|
    ensures forall k :: 0 <= k < |r| ==> |r[k]| >= 4 && IsUpper(r[k][0])
    ensures forall k, c :: 0 <= k < |r| && 0 <= c < |r[k]| ==> IsLetter(r[k][c])
    decreases |s| - i
  {
    if i == |s| then []
    else if IsUpper(s[i]) && RunLength(s, i + 1, IsLetter) >= 3 then
      var e := i + 1 + RunLength(s, i + 1, IsLetter);
      [s[i..e]] + LatinTerms(s, e)
    else LatinTerms(s, i + 1)
  }

  // ---- The three passes together ----

  function TrimAll(ws: seq<string>): (r: seq<string>)
    ensures |r| == |ws| && forall i :: 0 <= i < |ws| ==> r[i] == Trim(ws[i])
  {
    seq(|ws|, i requires 0 <= i < |ws| => Trim(ws[i]))
  }

  /** The words the bracket pass counts: the trimmed marker texts. */
  function BracketWords(body: string): seq<string> {
    TrimAll(BracketSpans(body, 0))
  }

  /** The words the kanji/kana pass counts. */
  function RunWords(body: string): seq<string> {
    Filter(KanaRuns(body, 0), IsCandidate)
  }

  function Weighted(ws: seq<string>, n: int): (xs: seq<(string, int)>)
    ensures Words(xs) == ws
    ensures forall i :: 0 <= i < |xs| ==> xs[i].1 == n
  {
    seq(|ws|, i requires 0 <= i < |ws| => (ws[i], n))
  }

  /** Every increment extractKeywords makes, in the order it makes them. */
  function Increments(body: string): seq<(string, int)> {
    Weighted(BracketWords(body), 3) + Weighted(RunWords(body), 1) + Weighted(LatinTerms(body, 0), 1)
  }

  lemma {:induction false} WeightOfAppend(a: seq<(string, int)>, b: seq<(string, int)>, w: string)
    ensures WeightOf(a + b, w) == WeightOf(a, w) + WeightOf(b, w)
    decreases |b|
  {
    if b == [] {
      assert a + b == a;
    } else {
      assert (a + b)[..|a + b| - 1] == a + b[..|b| - 1];
      WeightOfAppend(a, b[..|b| - 1], w);
    }
  }

  lemma {:induction false} WeightOfWeighted(ws: seq<string>, n: int, w: string)
    ensures WeightOf(Weighted(ws, n), w) == n * Count(ws, w)
    decreases |ws|
  {
    if ws != [] {
      var k := |ws| - 1;
      var xs := Weighted(ws, n);
      WeightOfWeighted(ws[..k], n, w);
      assert xs[..k] == Weighted(ws[..k], n);
      assert WeightOf(xs, w) == WeightOf(xs[..k], w) + (if ws[k] == w then n else 0);
      assert ws == ws[..k] + [ws[k]];
      CountAppend(ws[..k], [ws[k]], w);
      MulStep(n, Count(ws[..k], w), ws[k] == w);
    }
  }

  lemma MulStep(n: int, c: int, b: bool)
    ensures n * (c + (if b then 1 else 0)) == n * c + (if b then n else 0)
  {
  }

  /** Each word's weight is three per marker, one per kept kanji/kana run and one per Latin term. */
  lemma IncrementsWeight(body: string, w: string)
    ensures WeightOf(Increments(body), w)
      == 3 * Count(BracketWords(body), w) + Count(RunWords(body), w) + Count(LatinTerms(body, 0), w)
  {
    var a, b, c := Weighted(BracketWords(body), 3), Weighted(RunWords(body), 1), Weighted(LatinTerms(body, 0), 1);
    WeightOfAppend(a + b, c, w);
    WeightOfAppend(a, b, w);
    WeightOfWeighted(BracketWords(body), 3, w);
    WeightOfWeighted(RunWords(body), 1, w);
    WeightOfWeighted(LatinTerms(body, 0), 1, w);
  }

  /** One more word of a pass, counted with weight n. */
  lemma TallyStep(done: seq<(string, int)>, ws: seq<string>, i: nat, n: int)
    requires i < |ws|
    ensures Tally(done + Weighted(ws[..i + 1], n)) == Bump(Tally(done + Weighted(ws[..i], n)), ws[i], n)
  {
    var prev := done + Weighted(ws[..i], n);
    assert Weighted(ws[..i + 1], n) == Weighted(ws[..i], n) + [(ws[i], n)];
    var xs := prev + [(ws[i], n)];
    assert done + Weighted(ws[..i + 1], n) == xs;
    assert xs[..|xs| - 1] == prev;
  }

  /** One more kanji/kana match: counted when it is a candidate, skipped otherwise. */
  lemma TallyCandidateStep(done: seq<(string, int)>, ws: seq<string>, i: nat)
    requires i < |ws|
    ensures Tally(done + Weighted(Filter(ws[..i + 1], IsCandidate), 1))
      == if IsCandidate(ws[i]) then Bump(Tally(done + Weighted(Filter(ws[..i], IsCandidate), 1)), ws[i], 1)
         else Tally(done + Weighted(Filter(ws[..i], IsCandidate), 1))
  {
    assert ws[..i + 1] == ws[..i] + [ws[i]];
    FilterAppend(ws[..i], [ws[i]], IsCandidate);
    var kept := Filter(ws[..i], IsCandidate);
    if IsCandidate(ws[i]) {
      assert Filter(ws[..i + 1], IsCandidate) == kept + [ws[i]];
      TallyStep(done, kept + [ws[i]], |kept|, 1);
      assert (kept + [ws[i]])[..|kept|] == kept;
      assert (kept + [ws[i]])[..|kept| + 1] == kept + [ws[i]];
    } else {
      assert Filter(ws[..i + 1], IsCandidate) == kept;
    }
  }

  lemma IncrementsShape(body: string)
    ensures Words(Increments(body)) == BracketWords(body) + RunWords(body) + LatinTerms(body, 0)
    ensures forall i :: 0 <= i < |Increments(body)| ==> Increments(body)[i].1 >= 1
  {
    var a, b, c := Weighted(BracketWords(body), 3), Weighted(RunWords(body), 1), Weighted(LatinTerms(body, 0), 1);
    assert Increments(body) == (a + b) + c;
    WordsAppend(a + b, c);
    WordsAppend(a, b);
    var xs := (a + b) + c;
    forall i | 0 <= i < |xs| ensures xs[i].1 >= 1 {
      if i < |a| {
        assert xs[i] == a[i];
      } else if i < |a| + |b| {
        assert xs[i] == b[i - |a|];
      } else {
        assert xs[i] == c[i - |a| - |b|];
      }
    }
  }

  lemma WordsAppend(a: seq<(string, int)>, b: seq<(string, int)>)
    ensures Words(a + b) == Words(a) + Words(b)
  {
    var l, r := Words(a + b), Words(a) + Words(b);
    assert |l| == |r|;
    forall i | 0 <= i < |l| ensures l[i] == r[i] {
      if i < |a| {
        assert (a + b)[i] == a[i];
      } else {
        assert (a + b)[i] == b[i - |a|];
      }
    }
  }

  /** What the tally of all increments holds: the words in first-counted order, their weights, all positive. */
  lemma TallyOfIncrements(body: string)
    ensures Valid(Tally(Increments(body)))
    ensures Tally(Increments(body)).keys == Dedup(BracketWords(body) + RunWords(body) + LatinTerms(body, 0))
    ensures forall w :: (Get(Tally(Increments(body)), w, 0)
      == 3 * Count(BracketWords(body), w) + Count(RunWords(body), w) + Count(LatinTerms(body, 0), w))
    ensures forall w :: w in Tally(Increments(body)).vals ==> Tally(Increments(body)).vals[w] >= 1
  {
    TallyKeys(body);
    forall w ensures Get(Tally(Increments(body)), w, 0)
      == 3 * Count(BracketWords(body), w) + Count(RunWords(body), w) + Count(LatinTerms(body, 0), w)
    {
      TallyWeight(body, w);
    }
    TallyWeightsPositive(body);
  }

  lemma TallyKeys(body: string)
    ensures Tally(Increments(body)).keys == Dedup(BracketWords(body) + RunWords(body) + LatinTerms(body, 0))
  {
    IncrementsShape(body);
    TallySpec(Increments(body));
  }

  lemma TallyWeightsPositive(body: string)
    ensures forall w :: w in Tally(Increments(body)).vals ==> Tally(Increments(body)).vals[w] >= 1
  {
    IncrementsShape(body);
    TallyPositive(Increments(body));
  }

  lemma TallyWeight(body: string, w: string)
    ensures Get(Tally(Increments(body)), w, 0)
      == 3 * Count(BracketWords(body), w) + Count(RunWords(body), w) + Count(LatinTerms(body, 0), w)
  {
    TallySpec(Increments(body));
    IncrementsWeight(body, w);
  }

  /** The bracket pass: each marker adds 3 to its trimmed text. */
  method CountMarkers(body: string, kw0: OMap<int>, ghost done: seq<(string, int)>) returns (kw: OMap<int>)
    requires kw0 == Tally(done)
    ensures kw == Tally(done + Weighted(BracketWords(body), 3))
  {
    kw := kw0;
    var spans := BracketSpans(body, 0);
    ghost var words := TrimAll(spans);
    assert done + Weighted(words[..0], 3) == done;
    for i := 0 to |spans|
      invariant kw == Tally(done + Weighted(words[..i], 3))
    {
      TallyStep(done, words, i, 3);
      kw := Bump(kw, Trim(spans[i]), 3);
    }
    assert words[..|spans|] == BracketWords(body);
  }

  /** The kanji/kana pass: each match that is not a stop word adds 1. */
  method CountRuns(body: string, kw0: OMap<int>, ghost done: seq<(string, int)>) returns (kw: OMap<int>)
    requires kw0 == Tally(done)
    ensures kw == Tally(done + Weighted(RunWords(body), 1))
  {
    kw := kw0;
    var runs := KanaRuns(body, 0);
    assert Filter(runs[..0], IsCandidate) == [];
    assert done + Weighted(Filter(runs[..0], IsCandidate), 1) == done;
    for i := 0 to |runs|
      invariant kw == Tally(done + Weighted(Filter(runs[..i], IsCandidate), 1))
    {
      var word := runs[i];
      TallyCandidateStep(done, runs, i);
      if |word| >= 2 && word !in StopWords {
        kw := Bump(kw, word, 1);
      }
    }
    assert runs[..|runs|] == runs;
  }

  /** The Latin pass: each capitalised term adds 1. */
  method CountTerms(body: string, kw0: OMap<int>, ghost done: seq<(string, int)>) returns (kw: OMap<int>)
    requires kw0 == Tally(done)
    ensures kw == Tally(done + Weighted(LatinTerms(body, 0), 1))
  {
    kw := kw0;
    var terms := LatinTerms(body, 0);
    assert done + Weighted(terms[..0], 1) == done;
    for i := 0 to |terms|
      invariant kw == Tally(done + Weighted(terms[..i], 1))
    {
      TallyStep(done, terms, i, 1);
      kw := Bump(kw, terms[i], 1);
    }
    assert terms[..|terms|] == terms;
  }

  /**
   * extractKeywords: the Map from each word to its weight. Every weight is at least 1,
   * each word's weight is three per marker, one per kept run and one per Latin term,
   * and the words are ordered by the pass, and the position, that first counted them.
   */
  method ExtractKeywords(body: string) returns (kw: OMap<int>)
    ensures Valid(kw)
    ensures kw == Tally(Increments(body))
    ensures kw.keys == Dedup(BracketWords(body) + RunWords(body) + LatinTerms(body, 0))
    ensures forall w :: (Get(kw, w, 0)
      == 3 * Count(BracketWords(body), w) + Count(RunWords(body), w) + Count(LatinTerms(body, 0), w))
    ensures forall w :: w in kw.vals ==> kw.vals[w] >= 1
  {
    ghost var w1, w2, w3 := Weighted(BracketWords(body), 3), Weighted(RunWords(body), 1), Weighted(LatinTerms(body, 0), 1);
    assert [] + w1 == w1;
    kw := CountMarkers(body, Empty(), []);
    kw := CountRuns(body, kw, w1);
    kw := CountTerms(body, kw, w1 + w2);
    assert Increments(body) == w1 + w2 + w3;
    TallyOfIncrements(body);
  }

  // ---- escapeTs ----

  /** .replace(c, '\\' + c) for every occurrence of one character. */
  function EscapeChar(s: string, c: char): string {
    if s == [] then [] else (if s[0] == c then ['\\', c] else [s[0]]) + EscapeChar(s[1..], c)
  }

  /** escapeTs: backslashes, then backticks, then dollar signs each get a backslash in front. */
  function EscapeTs(s: string): string {
    EscapeChar(EscapeChar(EscapeChar(s, '\\'), '`'), '$')
  }

  predicate IsSpecial(c: char) {
    c == '\\' || c == '`' || c == '$'
  }

  /** The same escaping in one pass. */
  function EscapeOnce(s: string): string {
    if s == [] then [] else (if IsSpecial(s[0]) then ['\\', s[0]] else [s[0]]) + EscapeOnce(s[1..])
  }

  lemma {:induction false} EscapeCharAppend(a: string, b: string, c: char)
    ensures EscapeChar(a + b, c) == EscapeChar(a, c) + EscapeChar(b, c)
  {
    if a == [] {
      assert a + b == b;
    } else {
      assert (a + b)[1..] == a[1..] + b;
      EscapeCharAppend(a[1..], b, c);
    }
  }

  /** The three chained replacements are one pass that escapes the three special characters. */
  lemma {:induction false} EscapeTsInOnePass(s: string)
    ensures EscapeTs(s) == EscapeOnce(s)
  {
    if s != [] {
      EscapeTsInOnePass(s[1..]);
      var head := [s[0]];
      assert s == head + s[1..];
      EscapeCharAppend(head, s[1..], '\\');
      var a := EscapeChar(head, '\\');
      var b := EscapeChar(s[1..], '\\');
      EscapeCharAppend(a, b, '`');
      var a2 := EscapeChar(a, '`');
      var b2 := EscapeChar(b, '`');
      EscapeCharAppend(a2, b2, '$');
      assert EscapeChar(EscapeChar(a, '`'), '$') == (if IsSpecial(s[0]) then ['\\', s[0]] else [s[0]]);
    }
  }

  /**
   * The string a template literal denotes, for text whose backslashes all begin
   * one of the escapes \\, \` and \$ (the only ones escapeTs writes): each
   * escape stands for its character, and, as ECMAScript's template value (TV)
   * prescribes, a CR LF pair or a lone CR in the text stands for LF. Other
   * escape sequences are not modelled.
   */
  function Unescape(t: string): string {
    if t == [] then []
    else if t[0] == '\\' && |t| >= 2 then [t[1]] + Unescape(t[2..])
    else if t[0] == '\r' && |t| >= 2 && t[1] == '\n' then "\n" + Unescape(t[2..])
    else if t[0] == '\r' then "\n" + Unescape(t[1..])
    else [t[0]] + Unescape(t[1..])
  }

  /** s with every CR LF pair and every lone CR turned into LF. */
  function NormalizeLineEnds(s: string): string {
    if s == [] then []
    else if s[0] == '\r' && |s| >= 2 && s[1] == '\n' then "\n" + NormalizeLineEnds(s[2..])
    else if s[0] == '\r' then "\n" + NormalizeLineEnds(s[1..])
    else [s[0]] + NormalizeLineEnds(s[1..])
  }

  /** A string without CR has nothing to normalise. */
  lemma {:induction false} NormalizeWithoutCr(s: string)
    requires '\r' !in s
    ensures NormalizeLineEnds(s) == s
  {
    if s != [] {
      assert s[0] != '\r' && s == [s[0]] + s[1..];
      NormalizeWithoutCr(s[1..]);
    }
  }

  /** Text that is safe inside a template literal: every backslash begins one of the three escapes, and no special character is bare. */
  predicate SafeInTemplate(t: string) {
    if t == [] then true
    else if t[0] == '\\' then |t| >= 2 && IsSpecial(t[1]) && SafeInTemplate(t[2..])
    else !IsSpecial(t[0]) && SafeInTemplate(t[1..])
  }

  /**
   * escapeTs is safe and faithful up to line ends: the escaped text holds no
   * bare backtick, dollar sign or backslash, and the template literal it is
   * put in denotes the original string with its line ends normalised to LF,
   * so exactly the original string when it holds no CR.
   */
  lemma {:induction false} EscapeTsRoundTrip(s: string)
    ensures Unescape(EscapeTs(s)) == NormalizeLineEnds(s)
    ensures '\r' !in s ==> Unescape(EscapeTs(s)) == s
    ensures SafeInTemplate(EscapeTs(s))
  {
    EscapeTsInOnePass(s);
    EscapeOnceRoundTrip(s);
    if '\r' !in s {
      NormalizeWithoutCr(s);
    }
  }

  lemma {:induction false} EscapeOnceRoundTrip(s: string)
    ensures Unescape(EscapeOnce(s)) == NormalizeLineEnds(s)
    ensures SafeInTemplate(EscapeOnce(s))
  {
    if s != [] {
      EscapeOnceRoundTrip(s[1..]);
      var t := EscapeOnce(s);
      if IsSpecial(s[0]) {
        assert t[2..] == EscapeOnce(s[1..]);
      } else {
        assert t[0] == s[0] && t[1..] == EscapeOnce(s[1..]);
        if s[0] == '\r' && |s| >= 2 {
          var u := EscapeOnce(s[1..]);
          assert u[0] == (if IsSpecial(s[1]) then '\\' else s[1]);
          if s[1] == '\n' {
            EscapeOnceRoundTrip(s[2..]);
            assert u[1..] == EscapeOnce(s[2..]);
            assert t[2..] == EscapeOnce(s[2..]);
          }
        }
      }
    }
  }
}
