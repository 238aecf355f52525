/**
 * The poem engine of the front end (src/composables/useMarkov.ts): weighted
 * choice of a successor, the seed search, the keyword search over the token
 * index, the alternatives offered for a token, and the generation of a poem.
 * The emitted MARKOV_TABLE, STARTERS and TOKEN_INDEX are parameters, and every
 * Math.random() result is a Draw taken from a stream rng at a cursor.
 */
module MarkovEngine {
  import opened Wrappers
  import opened Seqs
  import opened Text
  import opened OrderedMaps
  import MarkovChain
  import MarkovTable
  import TokenIndex
  import Types

  /** A result of Math.random(). */
  type Draw = u: real | 0.0 <= u < 1.0

  /** A token's list of [successor, count] pairs, as MARKOV_TABLE holds it. */
  type Transitions = seq<(string, int)>

  type Table = MarkovTable.Serialized

  type Index = TokenIndex.Index

  const DefaultLines: int := 3
  const DefaultMaxTokensPerLine: int := 8
  const MaxStarterAlternatives: nat := 12

  // ---- Weighted choice ----

  /**
   * u * n, written as n repeated additions of u so that the solver meets no
   * product of two unknowns; ScaledIsProduct shows it is the product.
   */
  function Scaled(u: real, n: int): real
    decreases if n < 0 then -n else n
  {
    if n == 0 then 0.0 else if n > 0 then Scaled(u, n - 1) + u else Scaled(u, n + 1) - u
  }

  lemma {:induction false} ScaledIsProduct(u: real, n: int)
    ensures Scaled(u, n) == u * n as real
    decreases if n < 0 then -n else n
  {
    if n > 0 {
      ScaledIsProduct(u, n - 1);
    } else if n < 0 {
      ScaledIsProduct(u, n + 1);
    }
  }

  /** A draw scaled by n > 0 lies in [0, n). */
  lemma {:induction false} ScaledBelow(u: Draw, n: int)
    requires n > 0
    ensures 0.0 <= Scaled(u, n) < n as real
    ensures u > 0.0 ==> Scaled(u, n) > 0.0
    decreases n
  {
    if n > 1 {
      ScaledBelow(u, n - 1);
    }
  }

  predicate PositiveWeights(ts: Transitions) {
    forall i :: 0 <= i < |ts| ==> ts[i].1 >= 1
  }

  /** The sum of the first n weights. */
  function PrefixWeight(ts: Transitions, n: nat): (w: int)
    requires n <= |ts|
    ensures PositiveWeights(ts) ==> w >= n
  {
    if n == 0 then 0 else PrefixWeight(ts, n - 1) + ts[n - 1].1
  }

  /** transitions.reduce((s, [, w]) => s + w, 0). */
  function Total(ts: Transitions): int {
    PrefixWeight(ts, |ts|)
  }

  /** The running weight after entry i: the sum of weights 0..i. */
  function Through(ts: Transitions, i: nat): int
    requires i < |ts|
  {
    PrefixWeight(ts, i + 1)
  }

  /** Some running weight reaches r. */
  predicate Reaches(ts: Transitions, r: real) {
    exists i :: 0 <= i < |ts| && Through(ts, i) as real >= r
  }

  function FirstReaching(ts: Transitions, r: real, j: nat): (k: nat)
    requires j <= |ts|
    decreases |ts| - j
  {
    if j == |ts| then 0
    else if Through(ts, j) as real >= r then j
    else FirstReaching(ts, r, j + 1)
  }

  lemma {:induction false} FirstReachingSpec(ts: Transitions, r: real, j: nat)
    requires j <= |ts|
    requires forall i :: 0 <= i < j ==> Through(ts, i) as real < r
    ensures var k := FirstReaching(ts, r, j);
      && (|ts| > 0 ==> k < |ts|)
      && (Reaches(ts, r) ==> Through(ts, k) as real >= r && forall i :: 0 <= i < k ==> Through(ts, i) as real < r)
      && (!Reaches(ts, r) ==> k == 0)
    decreases |ts| - j
  {
    if j < |ts| && Through(ts, j) as real < r {
      FirstReachingSpec(ts, r, j + 1);
    } else if j == |ts| {
      assert !Reaches(ts, r);
    }
  }

  /**
   * The entry weightedRandom returns for r = u * total: the first whose running
   * weight reaches r, or the first entry when none does.
   */
  function Pick(ts: Transitions, r: real): (k: nat)
    ensures |ts| > 0 ==> k < |ts|
    ensures Reaches(ts, r) ==> Through(ts, k) as real >= r
    ensures Reaches(ts, r) ==> forall i :: 0 <= i < k ==> Through(ts, i) as real < r
    ensures !Reaches(ts, r) ==> k == 0
  {
    FirstReachingSpec(ts, r, 0);
    FirstReaching(ts, r, 0)
  }

  /** The token weightedRandom returns with Math.random() = u. */
  function WeightedChoice(ts: Transitions, u: Draw): string
    requires |ts| > 0
  {
    ts[Pick(ts, Scaled(u, Total(ts)))].0
  }

  /** weightedRandom, with Math.random() = u. */
  method WeightedRandom(transitions: Transitions, u: Draw) returns (token: string)
    requires |transitions| > 0
    ensures token == WeightedChoice(transitions, u)
  {
    var total := Total(transitions);
    var r := Scaled(u, total);
    ghost var r0 := r;
    for i := 0 to |transitions|
      invariant r == r0 - PrefixWeight(transitions, i) as real
      invariant forall k :: 0 <= k < i ==> Through(transitions, k) as real < r0
    {
      r := r - transitions[i].1 as real;
      assert r == r0 - Through(transitions, i) as real;
      if r <= 0.0 {
        assert Reaches(transitions, r0);
        token := transitions[i].0;
        return;
      }
    }
    assert !Reaches(transitions, r0);
    token := transitions[0].0;
  }

  lemma {:induction false} PrefixMonotone(ts: Transitions, a: nat, b: nat)
    requires PositiveWeights(ts) && a <= b <= |ts|
    ensures PrefixWeight(ts, a) + (b - a) <= PrefixWeight(ts, b)
    decreases b - a
  {
    if a < b {
      PrefixMonotone(ts, a, b - 1);
    }
  }

  /** With positive weights the fallback to the first entry is never taken. */
  lemma PickReaches(ts: Transitions, u: Draw)
    requires |ts| > 0 && PositiveWeights(ts)
    ensures Total(ts) >= |ts| && Reaches(ts, Scaled(u, Total(ts)))
  {
    PrefixMonotone(ts, 0, |ts|);
    ScaledBelow(u, Total(ts));
    assert Through(ts, |ts| - 1) as real >= Scaled(u, Total(ts));
  }

  /**
   * Entry j is chosen exactly when u * total falls in (w_0 + … + w_{j-1}, w_0 + … + w_j],
   * an interval of length w_j: each successor is drawn with probability weight / total.
   */
  lemma PickInterval(ts: Transitions, u: Draw, j: nat)
    requires |ts| > 0 && PositiveWeights(ts) && u > 0.0
    ensures var r := Scaled(u, Total(ts));
      Pick(ts, r) == j <==> j < |ts| && PrefixWeight(ts, j) as real < r <= Through(ts, j) as real
  {
    var r := Scaled(u, Total(ts));
    PickReaches(ts, u);
    ScaledBelow(u, Total(ts));
    var k := Pick(ts, r);
    if k > 0 {
      assert Through(ts, k - 1) as real < r;
    }
    if j < |ts| && PrefixWeight(ts, j) as real < r <= Through(ts, j) as real {
      if k < j {
        PrefixMonotone(ts, k + 1, j);
      }
    }
  }

  /** Math.random() = 0 picks the first entry. */
  lemma PickZero(ts: Transitions)
    requires |ts| > 0 && PositiveWeights(ts)
    ensures Pick(ts, 0.0) == 0
  {
    PrefixMonotone(ts, 0, 1);
    assert Through(ts, 0) as real >= 0.0;
  }

  // ---- Uniform choice ----

  /** Math.floor(Math.random() * n). */
  function DrawIndex(u: Draw, n: nat): (i: nat)
    requires n > 0
    ensures i < n
  {
    ScaledBelow(u, n);
    Scaled(u, n).Floor
  }

  /** Index i is drawn exactly when u falls in [i/n, (i+1)/n): each index has probability 1/n. */
  lemma DrawIndexInterval(u: Draw, n: nat, i: nat)
    requires n > 0
    ensures DrawIndex(u, n) == i <==> i as real <= Scaled(u, n) < (i + 1) as real
  {
  }

  // ---- findSeed ----

  function KeysContaining(table: Table, seed: string): seq<string> {
    Filter(table.keys, t => Contains(t, seed))
  }

  function StartersContaining(starters: seq<string>, seed: string): seq<string> {
    Filter(starters, s => Contains(s, seed))
  }

  /** The number of Math.random() calls findSeed makes. */
  function SeedDraws(table: Table, seed: string): (n: nat)
    ensures n <= 1
  {
    if seed in table.vals then 0 else 1
  }

  /**
   * findSeed with Math.random() = u: the seed itself when it is a token of the
   * table; else a drawn token containing it; else a drawn starter containing it;
   * else a drawn starter (None for the source's undefined when there are none).
   */
  function FindSeed(table: Table, starters: seq<string>, seed: string, u: Draw): (r: Option<string>)
    requires Valid(table)
    ensures seed in table.vals ==> r == Some(seed)
    ensures seed !in table.vals && (exists w :: w in table.keys && Contains(w, seed)) ==>
      r.Some? && r.value in table.keys && Contains(r.value, seed)
    ensures seed !in table.vals && (forall w :: w in table.keys ==> !Contains(w, seed)) && (exists s :: s in starters && Contains(s, seed)) ==>
      r.Some? && r.value in starters && Contains(r.value, seed)
    ensures seed !in table.vals && (forall w :: w in table.keys ==> !Contains(w, seed)) && (forall s :: s in starters ==> !Contains(s, seed)) ==>
      (r.Some? <==> starters != []) && (r.Some? ==> r.value in starters)
  {
    if seed in table.vals then Some(seed)
    else
      var containing := KeysContaining(table, seed);
      if |containing| > 0 then Some(containing[DrawIndex(u, |containing|)])
      else
        var starterMatch := StartersContaining(starters, seed);
        if |starterMatch| > 0 then Some(starterMatch[DrawIndex(u, |starterMatch|)])
        else if |starters| > 0 then Some(starters[DrawIndex(u, |starters|)])
        else None
  }

  // ---- findKeywordInToken ----

  /** A key the keyword loop considers: two or more characters, contained in the token. */
  predicate Eligible(kw: string, text: string) {
    |kw| >= 2 && Contains(text, kw)
  }

  /** The keyword loop over keys: the longest eligible key, the earliest of equal length. */
  function LongestIn(keys: seq<string>, text: string): Option<string> {
    if keys == [] then None
    else
      var n := |keys| - 1;
      var best := LongestIn(keys[..n], text);
      if Eligible(keys[n], text) && (best.None? || |keys[n]| > |best.value|) then Some(keys[n]) else best
  }

  /**
   * The loop finds nothing exactly when no key is eligible; otherwise it finds an
   * eligible key no shorter than any other, and the first of that length.
   */
  lemma {:induction false} LongestInSpec(keys: seq<string>, text: string)
    ensures LongestIn(keys, text).None? <==> forall i :: 0 <= i < |keys| ==> !Eligible(keys[i], text)
    ensures LongestIn(keys, text).Some? ==>
      var kw := LongestIn(keys, text).value;
      && kw in keys && Eligible(kw, text)
      && (forall i :: 0 <= i < |keys| && Eligible(keys[i], text) ==> |keys[i]| <= |kw|)
      && (forall i :: 0 <= i < |keys| && Eligible(keys[i], text) && |keys[i]| == |kw| ==> kw in keys[..i + 1])
  {
    LongestInNone(keys, text);
    LongestInFound(keys, text);
    LongestInFirst(keys, text);
  }

  lemma {:induction false} LongestInNone(keys: seq<string>, text: string)
    ensures LongestIn(keys, text).None? <==> forall i :: 0 <= i < |keys| ==> !Eligible(keys[i], text)
  {
    if keys != [] {
      var n := |keys| - 1;
      var init := keys[..n];
      LongestInNone(init, text);
      assert forall i :: 0 <= i < n ==> keys[i] == init[i];
    }
  }

  lemma {:induction false} LongestInFound(keys: seq<string>, text: string)
    ensures LongestIn(keys, text).Some? ==>
      var kw := LongestIn(keys, text).value;
      && kw in keys && Eligible(kw, text)
      && (forall i :: 0 <= i < |keys| && Eligible(keys[i], text) ==> |keys[i]| <= |kw|)
  {
    if keys != [] {
      var n := |keys| - 1;
      var init := keys[..n];
      LongestInFound(init, text);
      LongestInNone(init, text);
      assert forall i :: 0 <= i < n ==> keys[i] == init[i];
    }
  }

  /** Among the eligible keys of the longest length, the one found comes first. */
  predicate FirstOfItsLength(keys: seq<string>, text: string, kw: string) {
    forall i :: 0 <= i < |keys| && Eligible(keys[i], text) && |keys[i]| == |kw| ==> kw in keys[..i + 1]
  }

  lemma {:induction false} LongestInFirst(keys: seq<string>, text: string)
    ensures LongestIn(keys, text).Some? ==> FirstOfItsLength(keys, text, LongestIn(keys, text).value)
  {
    if keys != [] {
      var n := |keys| - 1;
      var init := keys[..n];
      LongestInFirst(init, text);
      LongestInFound(init, text);
      LongestInNone(init, text);
      var best := LongestIn(init, text);
      assert LongestIn(keys, text) == if Eligible(keys[n], text) && (best.None? || |keys[n]| > |best.value|) then Some(keys[n]) else best;
      if Eligible(keys[n], text) && (best.None? || |keys[n]| > |best.value|) {
        forall i | 0 <= i < n && Eligible(keys[i], text) ensures |keys[i]| < |keys[n]| {
          assert keys[i] == init[i];
        }
        NewLongestFirst(keys, text);
      } else if best.Some? {
        KeptLongestFirst(keys, text, best.value);
      }
    }
  }

  /** A key longer than every earlier eligible key is the first of its length. */
  lemma NewLongestFirst(keys: seq<string>, text: string)
    requires keys != []
    requires forall i :: 0 <= i < |keys| - 1 && Eligible(keys[i], text) ==> |keys[i]| < |keys[|keys| - 1]|
    ensures FirstOfItsLength(keys, text, keys[|keys| - 1])
  {
    var n := |keys| - 1;
    assert keys[..n + 1][n] == keys[n];
  }

  /** The earlier choice stays first of its length when one more key is appended. */
  lemma KeptLongestFirst(keys: seq<string>, text: string, kw: string)
    requires keys != [] && FirstOfItsLength(keys[..|keys| - 1], text, kw) && kw in keys[..|keys| - 1]
    ensures FirstOfItsLength(keys, text, kw)
  {
    var n := |keys| - 1;
    var init := keys[..n];
    forall i | 0 <= i < |keys| && Eligible(keys[i], text) && |keys[i]| == |kw| ensures kw in keys[..i + 1] {
      if i < n {
        assert keys[i] == init[i];
        assert init[..i + 1] == keys[..i + 1];
      } else {
        assert keys[..i + 1] == keys;
      }
    }
  }

  /** findKeywordInToken as a value: the token itself if it is indexed, else the loop's choice. */
  function KeywordIn(index: Index, text: string): Option<string> {
    if text in index.vals then Some(text) else LongestIn(index.keys, text)
  }

  /** findKeywordInToken. */
  method FindKeywordInToken(index: Index, text: string) returns (best: Option<string>)
    ensures best == KeywordIn(index, text)
  {
    if text in index.vals {
      return Some(text);
    }
    best := None;
    var keys := index.keys;
    for i := 0 to |keys|
      invariant best == LongestIn(keys[..i], text)
    {
      assert keys[..i + 1][..i] == keys[..i];
      var kw := keys[i];
      if |kw| < 2 {
        continue;
      }
      if !Contains(text, kw) {
        continue;
      }
      if best.None? || |kw| > |best.value| {
        best := Some(kw);
      }
    }
    assert keys[..|keys|] == keys;
  }

  /** getKeywordFromToken. */
  method GetKeywordFromToken(index: Index, text: string) returns (kw: Option<string>)
    ensures kw == KeywordIn(index, text)
  {
    kw := FindKeywordInToken(index, text);
  }

  /** getPlateauIdsForToken: TOKEN_INDEX[word] || []. */
  function PlateauIdsForToken(index: Index, word: string): seq<int> {
    Get(index, word, [])
  }

  /** A word of the built TOKEN_INDEX occurs in the plateaus of its ids; an absent word in none. */
  lemma PlateauIdsOfBuiltIndex(ps: seq<Types.Plateau>, tokenize: string -> seq<Types.Morpheme>, w: string, x: int)
    ensures x in PlateauIdsForToken(TokenIndex.TokenIndexOf(ps, tokenize), w) <==> TokenIndex.Occurs(ps, tokenize, w, x)
  {
    var index := TokenIndex.TokenIndexOf(ps, tokenize);
    if w in index.vals {
      TokenIndex.TokenIndexIds(ps, tokenize, w, x);
    } else if TokenIndex.Occurs(ps, tokenize, w, x) {
      var os := TokenIndex.Occurrences(ps, tokenize);
      TokenIndex.OccurrencesSpec(ps, tokenize, w, x);
      var j :| 0 <= j < |os| && os[j] == (w, x);
      assert Words(os)[j] == w;
      TokenIndex.TokenIndexKeys(ps, tokenize);
      DedupHas(Words(os), w);
      assert false;
    }
  }

  /** Every word of the built TOKEN_INDEX occurs in some plateau. */
  lemma IndexedWordOccurs(ps: seq<Types.Plateau>, tokenize: string -> seq<Types.Morpheme>, w: string)
    requires w in TokenIndex.TokenIndexOf(ps, tokenize).keys
    ensures exists x :: TokenIndex.Occurs(ps, tokenize, w, x)
  {
    var os := TokenIndex.Occurrences(ps, tokenize);
    TokenIndex.TokenIndexKeys(ps, tokenize);
    DedupHas(Words(os), w);
    var j :| 0 <= j < |os| && Words(os)[j] == w;
    TokenIndex.OccurrencesSpec(ps, tokenize, w, os[j].1);
  }

  /** A keyword found against the built TOKEN_INDEX is a word that occurs in some plateau. */
  lemma KeywordOfBuiltIndex(ps: seq<Types.Plateau>, tokenize: string -> seq<Types.Morpheme>, text: string)
    requires KeywordIn(TokenIndex.TokenIndexOf(ps, tokenize), text).Some?
    ensures exists x :: TokenIndex.Occurs(ps, tokenize, KeywordIn(TokenIndex.TokenIndexOf(ps, tokenize), text).value, x)
  {
    var index := TokenIndex.TokenIndexOf(ps, tokenize);
    LongestInSpec(index.keys, text);
    IndexedWordOccurs(ps, tokenize, KeywordIn(index, text).value);
  }

  // ---- getAlternatives ----

  /** A TokenAlternative. */
  datatype Alternative = Alternative(text: string, probability: real, isKeyword: bool, isSelected: bool)

  /** Every list of the table has positive weights, as the build emits it. */
  ghost predicate Weighted(table: Table) {
    Valid(table) && forall a :: a in table.vals ==> PositiveWeights(table.vals[a])
  }

  lemma TotalPositive(ts: Transitions)
    requires |ts| > 0 && PositiveWeights(ts)
    ensures Total(ts) >= |ts| > 0
  {
    PrefixMonotone(ts, 0, |ts|);
  }

  /** The candidates of a list: each successor with weight / total. */
  function Distribution(ts: Transitions, index: Index): (r: seq<Alternative>)
    requires PositiveWeights(ts)
    ensures |r| == |ts|
    ensures forall i :: 0 <= i < |ts| ==>
      && r[i].text == ts[i].0 && !r[i].isSelected
      && r[i].probability == ts[i].1 as real / Total(ts) as real
      && r[i].isKeyword == KeywordIn(index, ts[i].0).Some?
  {
    if ts == [] then []
    else
      TotalPositive(ts);
      seq(|ts|, i requires 0 <= i < |ts| =>
        Alternative(ts[i].0, ts[i].1 as real / Total(ts) as real, KeywordIn(index, ts[i].0).Some?, false))
  }

  /** The candidates for the first token: each listed starter with probability 1 / n. */
  function Uniform(subset: seq<string>, index: Index): (r: seq<Alternative>)
    ensures |r| == |subset|
    ensures forall i :: 0 <= i < |subset| ==>
      && r[i].text == subset[i] && !r[i].isSelected
      && r[i].probability == 1.0 / |subset| as real
      && r[i].isKeyword == KeywordIn(index, subset[i]).Some?
  {
    seq(|subset|, i requires 0 <= i < |subset| =>
      Alternative(subset[i], 1.0 / |subset| as real, KeywordIn(index, subset[i]).Some?, false))
  }

  predicate Related(k: string, p: string) {
    Contains(k, p) || Contains(p, k)
  }

  /** Object.keys(MARKOV_TABLE).find(k => k.includes(prevToken) || prevToken.includes(k)). */
  function FirstRelated(keys: seq<string>, p: string): (r: Option<nat>)
    ensures r.None? <==> forall i :: 0 <= i < |keys| ==> !Related(keys[i], p)
    ensures r.Some? ==>
      && r.value < |keys| && Related(keys[r.value], p)
      && forall i :: 0 <= i < r.value ==> !Related(keys[i], p)
  {
    if keys == [] then None
    else if Related(keys[0], p) then Some(0)
    else
      var rest := FirstRelated(keys[1..], p);
      assert forall i :: 1 <= i < |keys| ==> keys[i] == keys[1..][i - 1];
      if rest.None? then None else Some(rest.value + 1)
  }

  /**
   * getAlternatives: for the first position the first twelve starters, uniformly;
   * after a token with successors, its successors with their probabilities; after
   * any other token, the successors of the first token related to it by
   * containment, or nothing when there is none.
   */
  function GetAlternatives(table: Table, starters: seq<string>, index: Index, prevToken: Option<string>): (r: seq<Alternative>)
    requires Weighted(table)
    ensures prevToken.None? ==>
      && |r| == Min(MaxStarterAlternatives, |starters|)
      && forall i :: 0 <= i < |r| ==> r[i].text == starters[i] && r[i].probability == 1.0 / |r| as real
    ensures prevToken.Some? && prevToken.value in table.vals && table.vals[prevToken.value] != [] ==>
      r == Distribution(table.vals[prevToken.value], index)
    ensures prevToken.Some? && !(prevToken.value in table.vals && table.vals[prevToken.value] != []) ==>
      match FirstRelated(table.keys, prevToken.value)
      case None => r == []
      case Some(j) => r == Distribution(table.vals[table.keys[j]], index)
    ensures forall i :: 0 <= i < |r| ==> !r[i].isSelected && r[i].isKeyword == KeywordIn(index, r[i].text).Some?
  {
    match prevToken
    case None =>
      Uniform(Take(starters, MaxStarterAlternatives), index)
    case Some(p) =>
      if p in table.vals && table.vals[p] != [] then Distribution(table.vals[p], index)
      else
        match FirstRelated(table.keys, p)
        case None => []
        case Some(j) => Distribution(table.vals[table.keys[j]], index)
  }

  /** The probabilities of a list of alternatives, added up. */
  function ProbabilitySum(alts: seq<Alternative>): real {
    if alts == [] then 0.0 else ProbabilitySum(alts[..|alts| - 1]) + alts[|alts| - 1].probability
  }

  lemma SumOfQuotients(a: real, b: real, d: real)
    requires d > 0.0
    ensures a / d + b / d == (a + b) / d
  {
  }

  lemma {:induction false} DistributionSum(ts: Transitions, index: Index, n: nat)
    requires |ts| > 0 && PositiveWeights(ts) && n <= |ts|
    ensures ProbabilitySum(Distribution(ts, index)[..n]) == PrefixWeight(ts, n) as real / Total(ts) as real
  {
    if n > 0 {
      var d := Distribution(ts, index);
      assert d[..n][..n - 1] == d[..n - 1];
      DistributionSum(ts, index, n - 1);
      var total := Total(ts) as real;
      SumOfQuotients(PrefixWeight(ts, n - 1) as real, ts[n - 1].1 as real, total);
    }
  }

  lemma {:induction false} UniformSum(subset: seq<string>, index: Index, n: nat)
    requires 0 < |subset| && n <= |subset|
    ensures ProbabilitySum(Uniform(subset, index)[..n]) == n as real / |subset| as real
  {
    if n > 0 {
      var d := Uniform(subset, index);
      assert d[..n][..n - 1] == d[..n - 1];
      UniformSum(subset, index, n - 1);
      SumOfQuotients((n - 1) as real, 1.0, |subset| as real);
    }
  }

  lemma QuotientInUnit(w: real, d: real)
    requires 0.0 < w <= d
    ensures 0.0 < w / d <= 1.0
  {
  }

  /** Each weight is a share of the total in (0, 1]. */
  lemma WeightShare(ts: Transitions, i: nat)
    requires PositiveWeights(ts) && i < |ts|
    ensures 0.0 < ts[i].1 as real / Total(ts) as real <= 1.0
  {
    PrefixMonotone(ts, i + 1, |ts|);
    assert ts[i].1 <= PrefixWeight(ts, i + 1);
    QuotientInUnit(ts[i].1 as real, Total(ts) as real);
  }

  /** The candidates of a non-empty list with positive weights form a distribution. */
  lemma DistributionIsDistribution(ts: Transitions, index: Index)
    requires |ts| > 0 && PositiveWeights(ts)
    ensures var r := Distribution(ts, index);
      && (forall i :: 0 <= i < |r| ==> 0.0 < r[i].probability <= 1.0)
      && ProbabilitySum(r) == 1.0
  {
    var r := Distribution(ts, index);
    DistributionSum(ts, index, |ts|);
    assert r[..|r|] == r;
    TotalPositive(ts);
    SelfQuotient(Total(ts) as real);
    forall i | 0 <= i < |r| ensures 0.0 < r[i].probability <= 1.0 {
      WeightShare(ts, i);
    }
  }

  lemma SelfQuotient(d: real)
    requires d > 0.0
    ensures d / d == 1.0
  {
  }

  /** The candidates for the first token form a distribution when there are starters. */
  lemma UniformIsDistribution(subset: seq<string>, index: Index)
    requires |subset| > 0
    ensures var r := Uniform(subset, index);
      && (forall i :: 0 <= i < |r| ==> 0.0 < r[i].probability <= 1.0)
      && ProbabilitySum(r) == 1.0
  {
    var r := Uniform(subset, index);
    UniformSum(subset, index, |subset|);
    assert r[..|r|] == r;
    QuotientInUnit(1.0, |subset| as real);
  }

  /**
   * The alternatives form a distribution: every probability is in (0, 1] and,
   * unless there are none, they add up to one.
   */
  lemma AlternativesDistribution(table: Table, starters: seq<string>, index: Index, prevToken: Option<string>)
    requires Weighted(table)
    ensures var r := GetAlternatives(table, starters, index, prevToken);
      && (forall i :: 0 <= i < |r| ==> 0.0 < r[i].probability <= 1.0)
      && (r != [] ==> ProbabilitySum(r) == 1.0)
  {
    var r := GetAlternatives(table, starters, index, prevToken);
    if prevToken.None? {
      var subset := Take(starters, MaxStarterAlternatives);
      if subset != [] {
        UniformIsDistribution(subset, index);
      }
    } else if r != [] {
      var p := prevToken.value;
      if p in table.vals && table.vals[p] != [] {
        DistributionIsDistribution(table.vals[p], index);
      } else {
        var j := FirstRelated(table.keys, p).value;
        DistributionIsDistribution(table.vals[table.keys[j]], index);
      }
    }
  }

  // ---- generatePoem ----

  /** A PoemToken. */
  datatype PoemToken = PoemToken(text: string, isKeyword: bool, prevToken: Option<string>, probability: real)

  /** A PoemLine. */
  datatype PoemLine = PoemLine(tokens: seq<PoemToken>)

  /** The natural break points that end a line. */
  predicate IsTerminal(s: string) {
    EndsWith(s, "。") || EndsWith(s, "、") || EndsWith(s, "——")
  }

  /** MARKOV_TABLE[t] is a non-empty list. */
  predicate HasNext(table: Table, t: string) {
    t in table.vals && table.vals[t] != []
  }

  /** b is listed as a successor of a. */
  predicate IsSuccessor(table: Table, a: string, b: string) {
    a in table.vals && exists i :: 0 <= i < |table.vals[a]| && table.vals[a][i].0 == b
  }

  /** The token weightedRandom(MARKOV_TABLE[a]) returns with Math.random() = u. */
  function NextToken(table: Table, a: string, u: Draw): (b: string)
    requires HasNext(table, a)
    ensures IsSuccessor(table, a, b)
  {
    WeightedChoice(table.vals[a], u)
  }

  /** transitions.find(([tok]) => tok === t), as the index of the entry. */
  function FirstEntry(ts: Transitions, t: string): (r: Option<nat>)
    ensures r.None? <==> forall i :: 0 <= i < |ts| ==> ts[i].0 != t
    ensures r.Some? ==> r.value < |ts| && ts[r.value].0 == t && forall i :: 0 <= i < r.value ==> ts[i].0 != t
  {
    if ts == [] then None
    else if ts[0].0 == t then Some(0)
    else
      var rest := FirstEntry(ts[1..], t);
      assert forall i :: 1 <= i < |ts| ==> ts[i].0 == ts[1..][i - 1].0;
      if rest.None? then None else Some(rest.value + 1)
  }

  /** entry ? entry[1] / total : 0. */
  function EntryProbability(ts: Transitions, t: string): real
    requires PositiveWeights(ts)
  {
    match FirstEntry(ts, t)
    case None => 0.0
    case Some(i) => ts[i].1 as real / Total(ts) as real
  }

  /**
   * The probability recorded for a token t drawn after a: the loop computes it
   * only when a is truthy (not ""), the break-point branch always.
   */
  function TokenProbability(table: Table, a: string, t: string): real
    requires Weighted(table) && HasNext(table, a)
  {
    if a != "" || IsTerminal(t) then EntryProbability(table.vals[a], t) else 1.0
  }

  /** The first token of a line. */
  function FirstToken(index: Index, start: string): PoemToken {
    PoemToken(start, KeywordIn(index, start).Some?, None, 1.0)
  }

  /** tok is the token drawn after a with Math.random() = u, recorded as the source records it. */
  ghost predicate Follows(table: Table, index: Index, a: string, tok: PoemToken, u: Draw)
    requires Weighted(table)
  {
    && HasNext(table, a)
    && tok.prevToken == Some(a)
    && tok.text == NextToken(table, a, u)
    && tok.probability == TokenProbability(table, a, tok.text)
    && tok.isKeyword == KeywordIn(index, tok.text).Some?
  }

  /**
   * The tokens of a line from start, the draws taken from rng at c0, c0 + 1, …:
   * each token after the first is drawn after its predecessor, and only the
   * last can be a break point.
   */
  ghost predicate LineDrawn(table: Table, index: Index, start: string, tokens: seq<PoemToken>, rng: nat -> Draw, c0: nat)
    requires Weighted(table)
  {
    && |tokens| > 0
    && tokens[0] == FirstToken(index, start)
    && (forall k :: 1 <= k < |tokens| ==> DrawnAt(table, index, tokens, rng, c0, k))
    && (forall k :: 1 <= k < |tokens| - 1 ==> !IsTerminal(tokens[k].text))
  }

  /** Token k of the line follows token k - 1 with the draw at c0 + k - 1. */
  ghost predicate DrawnAt(table: Table, index: Index, tokens: seq<PoemToken>, rng: nat -> Draw, c0: nat, k: nat)
    requires Weighted(table) && 1 <= k < |tokens|
  {
    Follows(table, index, tokens[k - 1].text, tokens[k], rng(c0 + k - 1))
  }

  /**
   * Why the line stopped, with the cursor after it: a break point was drawn, or the
   * last token has no successors, or the line is full (its last draw then unused).
   */
  ghost predicate LineEnded(table: Table, tokens: seq<PoemToken>, maxTokens: int, rng: nat -> Draw, c0: nat, c: nat)
    requires |tokens| > 0
  {
    var last := tokens[|tokens| - 1].text;
    || (c == c0 + |tokens| - 1 && 2 <= |tokens| <= maxTokens + 1 && IsTerminal(last))
    || (c == c0 + |tokens| - 1 && |tokens| <= maxTokens && !HasNext(table, last))
    || (&& c == c0 + |tokens| && |tokens| == maxTokens && (|tokens| == 1 || !IsTerminal(last))
        && HasNext(table, last) && !IsTerminal(NextToken(table, last, rng(c - 1))))
  }

  lemma AppendDrawn(table: Table, index: Index, start: string, tokens: seq<PoemToken>, token: PoemToken, rng: nat -> Draw, c0: nat)
    requires Weighted(table) && LineDrawn(table, index, start, tokens, rng, c0)
    requires forall k :: 1 <= k < |tokens| ==> !IsTerminal(tokens[k].text)
    requires Follows(table, index, tokens[|tokens| - 1].text, token, rng(c0 + |tokens| - 1))
    ensures LineDrawn(table, index, start, tokens + [token], rng, c0)
  {
    var s := tokens + [token];
    forall k | 1 <= k < |s| ensures DrawnAt(table, index, s, rng, c0, k) {
      if k < |tokens| {
        assert DrawnAt(table, index, tokens, rng, c0, k);
        assert s[k - 1] == tokens[k - 1] && s[k] == tokens[k];
      }
    }
  }

  /**
   * The state at the top of the token loop: nothing pushed yet and current is
   * the start; or the tokens so far, prev the last of them and current already
   * drawn after it with the next draw of the stream, not a break point.
   */
  ghost predicate Pending(table: Table, index: Index, start: string, tokens: seq<PoemToken>, prev: Option<string>,
                          current: string, rng: nat -> Draw, c0: nat, c: nat)
    requires Weighted(table)
  {
    || (tokens == [] && prev.None? && current == start && c == c0)
    || (&& LineDrawn(table, index, start, tokens, rng, c0)
        && (forall k :: 1 <= k < |tokens| ==> !IsTerminal(tokens[k].text))
        && prev == Some(tokens[|tokens| - 1].text) && HasNext(table, prev.value)
        && c == c0 + |tokens| && current == NextToken(table, prev.value, rng(c - 1))
        && !IsTerminal(current))
  }

  /** The line stopped early: a break point was drawn, or the last token has no successors. */
  ghost predicate Stopped(table: Table, index: Index, start: string, tokens: seq<PoemToken>, rng: nat -> Draw, c0: nat, c: nat)
    requires Weighted(table)
  {
    && LineDrawn(table, index, start, tokens, rng, c0)
    && c == c0 + |tokens| - 1
    && ((|tokens| >= 2 && IsTerminal(tokens[|tokens| - 1].text)) || !HasNext(table, tokens[|tokens| - 1].text))
  }

  /** The probability the loop records for current: computed only when prev is a truthy token of the table. */
  function LoopProbability(table: Table, prev: Option<string>, current: string): real
    requires Weighted(table)
  {
    if prev.Some? && prev.value != "" && prev.value in table.vals then EntryProbability(table.vals[prev.value], current) else 1.0
  }

  /** Just after a push: the drawn line so far, no break point after the first token, the cursor at its draws. */
  ghost predicate Pushed(table: Table, index: Index, start: string, tokens: seq<PoemToken>, rng: nat -> Draw, c0: nat, c: nat)
    requires Weighted(table)
  {
    && LineDrawn(table, index, start, tokens, rng, c0)
    && (forall k :: 1 <= k < |tokens| ==> !IsTerminal(tokens[k].text))
    && c == c0 + |tokens| - 1
  }

  /** Pushing current at the top of the loop extends the drawn line. */
  lemma PushCurrent(table: Table, index: Index, start: string, tokens: seq<PoemToken>, prev: Option<string>,
                    current: string, rng: nat -> Draw, c0: nat, c: nat)
    requires Weighted(table) && Pending(table, index, start, tokens, prev, current, rng, c0, c)
    ensures Pushed(table, index, start, tokens + [PoemToken(current, KeywordIn(index, current).Some?, prev, LoopProbability(table, prev, current))], rng, c0, c)
  {
    var token := PoemToken(current, KeywordIn(index, current).Some?, prev, LoopProbability(table, prev, current));
    if tokens != [] {
      AppendDrawn(table, index, start, tokens, token, rng, c0);
    }
  }

  /** A token without successors ends the line. */
  lemma NoNextStops(table: Table, index: Index, start: string, tokens: seq<PoemToken>, rng: nat -> Draw, c0: nat, c: nat)
    requires Weighted(table) && Pushed(table, index, start, tokens, rng, c0, c)
    requires !HasNext(table, tokens[|tokens| - 1].text)
    ensures Stopped(table, index, start, tokens, rng, c0, c)
  {
  }

  /** A drawn token that is not a break point is the next current. */
  lemma DrawContinues(table: Table, index: Index, start: string, tokens: seq<PoemToken>, rng: nat -> Draw, c0: nat, c: nat)
    requires Weighted(table) && Pushed(table, index, start, tokens, rng, c0, c)
    requires HasNext(table, tokens[|tokens| - 1].text)
    requires !IsTerminal(NextToken(table, tokens[|tokens| - 1].text, rng(c)))
    ensures var a := tokens[|tokens| - 1].text;
      Pending(table, index, start, tokens, Some(a), NextToken(table, a, rng(c)), rng, c0, c + 1)
  {
  }

  /** A drawn break point is pushed with its probability and ends the line. */
  lemma DrawBreaks(table: Table, index: Index, start: string, tokens: seq<PoemToken>, rng: nat -> Draw, c0: nat, c: nat)
    requires Weighted(table) && Pushed(table, index, start, tokens, rng, c0, c)
    requires HasNext(table, tokens[|tokens| - 1].text)
    requires IsTerminal(NextToken(table, tokens[|tokens| - 1].text, rng(c)))
    ensures var a := tokens[|tokens| - 1].text;
      var b := NextToken(table, a, rng(c));
      Stopped(table, index, start, tokens + [PoemToken(b, KeywordIn(index, b).Some?, Some(a), EntryProbability(table.vals[a], b))], rng, c0, c + 1)
  {
    var a := tokens[|tokens| - 1].text;
    var b := NextToken(table, a, rng(c));
    AppendDrawn(table, index, start, tokens, PoemToken(b, KeywordIn(index, b).Some?, Some(a), EntryProbability(table.vals[a], b)), rng, c0);
  }

  /** The top of the token loop: the probability of current, then the push. */
  method PushToken(table: Table, index: Index, start: string, tokens0: seq<PoemToken>, prev: Option<string>,
                   current: string, rng: nat -> Draw, ghost c0: nat, c: nat)
    returns (tokens: seq<PoemToken>)
    requires Weighted(table) && Pending(table, index, start, tokens0, prev, current, rng, c0, c)
    ensures Pushed(table, index, start, tokens, rng, c0, c)
    ensures |tokens| == |tokens0| + 1 && tokens[|tokens| - 1].text == current
  {
    var prob := 1.0;
    if prev.Some? && prev.value != "" && prev.value in table.vals {
      prob := EntryProbability(table.vals[prev.value], current);
    }
    var keyword := FindKeywordInToken(index, current);
    PushCurrent(table, index, start, tokens0, prev, current, rng, c0, c);
    tokens := tokens0 + [PoemToken(current, keyword.Some?, prev, prob)];
  }

  /** The rest of the loop body: stop without successors, else draw, and stop after a break point. */
  method DrawNext(table: Table, index: Index, start: string, tokens0: seq<PoemToken>, rng: nat -> Draw, ghost c0: nat, c1: nat)
    returns (tokens: seq<PoemToken>, prev: Option<string>, current: string, c: nat, stop: bool)
    requires Weighted(table) && Pushed(table, index, start, tokens0, rng, c0, c1)
    ensures stop ==> Stopped(table, index, start, tokens, rng, c0, c)
    ensures stop ==> || (tokens == tokens0 && !HasNext(table, tokens[|tokens| - 1].text))
                     || (|tokens| == |tokens0| + 1 && IsTerminal(tokens[|tokens| - 1].text))
    ensures !stop ==> Pending(table, index, start, tokens, prev, current, rng, c0, c) && tokens == tokens0
  {
    tokens, c, stop := tokens0, c1, true;
    var last := tokens[|tokens| - 1].text;
    prev, current := Some(last), last;
    if last !in table.vals || table.vals[last] == [] {
      NoNextStops(table, index, start, tokens, rng, c0, c);
      return;
    }
    var next := table.vals[last];
    current := WeightedRandom(next, rng(c));
    assert current == NextToken(table, last, rng(c));
    if IsTerminal(current) {
      DrawBreaks(table, index, start, tokens, rng, c0, c);
      var p := EntryProbability(table.vals[last], current);
      var keyword := FindKeywordInToken(index, current);
      tokens := tokens + [PoemToken(current, keyword.Some?, prev, p)];
      c := c + 1;
      assert Stopped(table, index, start, tokens, rng, c0, c);
      return;
    }
    DrawContinues(table, index, start, tokens, rng, c0, c);
    c, stop := c + 1, false;
    assert Pending(table, index, start, tokens, prev, current, rng, c0, c);
  }

  /**
   * One line of generatePoem from the token start, Math.random() being rng(c0),
   * rng(c0 + 1), …; c is the cursor after the line's draws.
   */
  method GenerateLine(table: Table, index: Index, start: string, maxTokens: int, rng: nat -> Draw, c0: nat)
    returns (tokens: seq<PoemToken>, c: nat)
    requires Weighted(table)
    ensures maxTokens <= 0 ==> tokens == [] && c == c0
    ensures maxTokens > 0 ==> LineDrawn(table, index, start, tokens, rng, c0) && |tokens| <= maxTokens + 1
    ensures maxTokens > 0 ==> LineEnded(table, tokens, maxTokens, rng, c0, c)
  {
    tokens, c := [], c0;
    var current := start;
    var prev: Option<string> := None;
    var t := 0;
    while t < maxTokens
      invariant 0 <= t == |tokens| && t <= (if maxTokens > 0 then maxTokens else 0)
      invariant t == 0 ==> c == c0
      invariant Pending(table, index, start, tokens, prev, current, rng, c0, c)
    {
      var stop;
      tokens := PushToken(table, index, start, tokens, prev, current, rng, c0, c);
      tokens, prev, current, c, stop := DrawNext(table, index, start, tokens, rng, c0, c);
      if stop {
        return;
      }
      t := t + 1;
    }
  }

  /**
   * A line of the poem drawn from the stream at cursor c: findSeed takes its
   * start with the draw at c (using it only when the seed has no row), the
   * tokens are drawn from the draws that follow, and the line ends at next.
   */
  ghost predicate LineAt(table: Table, index: Index, starters: seq<string>, seed: string, maxTokens: int,
                         rng: nat -> Draw, line: PoemLine, c: nat, next: nat)
    requires Weighted(table)
  {
    var s := c + SeedDraws(table, seed);
    var start := FindSeed(table, starters, seed, rng(c));
    && start.Some?
    && LineDrawn(table, index, start.value, line.tokens, rng, s)
    && LineEnded(table, line.tokens, maxTokens, rng, s, next)
  }

  /** Starting from findSeed's token, a drawn line that has ended is a line of the poem at c. */
  lemma LineAtIntro(table: Table, index: Index, starters: seq<string>, seed: string, maxTokens: int,
                    rng: nat -> Draw, start: string, tokens: seq<PoemToken>, c: nat, next: nat)
    requires Weighted(table) && FindSeed(table, starters, seed, rng(c)) == Some(start)
    requires LineDrawn(table, index, start, tokens, rng, c + SeedDraws(table, seed))
    requires LineEnded(table, tokens, maxTokens, rng, c + SeedDraws(table, seed), next)
    ensures LineAt(table, index, starters, seed, maxTokens, rng, PoemLine(tokens), c, next)
  {
  }

  /** Every token of the poem carries a probability in (0, 1]. */
  predicate ProbabilitiesInUnit(poem: seq<PoemLine>) {
    forall i, k :: 0 <= i < |poem| && 0 <= k < |poem[i].tokens| ==> 0.0 < poem[i].tokens[k].probability <= 1.0
  }

  /** The lines of a poem, each drawn where the one before it stopped, the first at cursor 0. */
  ghost predicate PoemDrawn(table: Table, index: Index, starters: seq<string>, seed: string, maxTokens: int,
                            rng: nat -> Draw, poem: seq<PoemLine>, cs: seq<nat>)
    requires Weighted(table)
  {
    && |cs| == |poem| + 1 && cs[0] == 0
    && forall i :: 0 <= i < |poem| ==> LineAt(table, index, starters, seed, maxTokens, rng, poem[i], cs[i], cs[i + 1])
  }

  /** With a starter to fall back on, findSeed always yields a token. */
  lemma FindSeedSome(table: Table, starters: seq<string>, seed: string, u: Draw)
    requires Valid(table) && starters != []
    ensures FindSeed(table, starters, seed, u).Some?
  {
    if seed !in table.vals && (forall w :: w in table.keys ==> !Contains(w, seed)) {
      if forall s :: s in starters ==> !Contains(s, seed) {
      } else {
        var s :| s in starters && Contains(s, seed);
      }
    } else if seed !in table.vals {
      var w :| w in table.keys && Contains(w, seed);
    }
  }

  /**
   * generatePoem: one line per requested line, each from a fresh findSeed, the
   * draws of all lines taken in turn from rng; a line without tokens is dropped.
   * cs holds the cursor at the start of each line and after the last one.
   */
  method GeneratePoem(table: Table, starters: seq<string>, index: Index, seedWord: string, lines: int,
                      maxTokensPerLine: int, rng: nat -> Draw)
    returns (poem: seq<PoemLine>, ghost cs: seq<nat>)
    requires Weighted(table) && starters != []
    ensures |poem| == if lines > 0 && maxTokensPerLine > 0 then lines else 0
    ensures PoemDrawn(table, index, starters, seedWord, maxTokensPerLine, rng, poem, cs)
    ensures forall i :: 0 <= i < |poem| ==> 0 < |poem[i].tokens| <= maxTokensPerLine + 1
    ensures ProbabilitiesInUnit(poem)
  {
    poem, cs := [], [0];
    var c: nat := 0;
    var l := 0;
    while l < lines
      invariant 0 <= l <= (if lines > 0 then lines else 0)
      invariant |poem| == if maxTokensPerLine > 0 then l else 0
      invariant PoemDrawn(table, index, starters, seedWord, maxTokensPerLine, rng, poem, cs)
      invariant maxTokensPerLine > 0 ==> cs[|poem|] == c
      invariant forall i :: 0 <= i < |poem| ==> 0 < |poem[i].tokens| <= maxTokensPerLine + 1
      invariant ProbabilitiesInUnit(poem)
    {
      var tokens, c1 := PoemLineAt(table, starters, index, seedWord, maxTokensPerLine, rng, c);
      if |tokens| > 0 {
        var line := PoemLine(tokens);
        PoemSnoc(table, index, starters, seedWord, maxTokensPerLine, rng, poem, cs, line, c1);
        poem, cs := poem + [line], cs + [c1];
      }
      c := c1;
      l := l + 1;
    }
  }

  /** The body of generatePoem's outer loop: findSeed, then one line, from cursor c on. */
  method PoemLineAt(table: Table, starters: seq<string>, index: Index, seedWord: string, maxTokens: int,
                    rng: nat -> Draw, c: nat)
    returns (tokens: seq<PoemToken>, next: nat)
    requires Weighted(table) && starters != []
    ensures maxTokens <= 0 ==> tokens == []
    ensures maxTokens > 0 ==> LineAt(table, index, starters, seedWord, maxTokens, rng, PoemLine(tokens), c, next)
    ensures maxTokens > 0 ==> 0 < |tokens| <= maxTokens + 1
    ensures forall k :: 0 <= k < |tokens| ==> 0.0 < tokens[k].probability <= 1.0
  {
    FindSeedSome(table, starters, seedWord, rng(c));
    var start := FindSeed(table, starters, seedWord, rng(c)).value;
    var c0 := c + SeedDraws(table, seedWord);
    tokens, next := GenerateLine(table, index, start, maxTokens, rng, c0);
    if maxTokens > 0 {
      LineAtIntro(table, index, starters, seedWord, maxTokens, rng, start, tokens, c, next);
      DrawnProbabilities(table, index, start, tokens, rng, c0);
    }
  }

  /** generatePoem(seedWord) with its default arguments: three lines of at most eight drawn tokens and a break point. */
  method GenerateDefaultPoem(table: Table, starters: seq<string>, index: Index, seedWord: string, rng: nat -> Draw)
    returns (poem: seq<PoemLine>, ghost cs: seq<nat>)
    requires Weighted(table) && starters != []
    ensures |poem| == 3
    ensures PoemDrawn(table, index, starters, seedWord, 8, rng, poem, cs)
    ensures forall i :: 0 <= i < |poem| ==> 0 < |poem[i].tokens| <= 9
  {
    poem, cs := GeneratePoem(table, starters, index, seedWord, DefaultLines, DefaultMaxTokensPerLine, rng);
  }

  lemma PoemSnoc(table: Table, index: Index, starters: seq<string>, seed: string, maxTokens: int,
                 rng: nat -> Draw, poem: seq<PoemLine>, cs: seq<nat>, line: PoemLine, c: nat)
    requires Weighted(table) && PoemDrawn(table, index, starters, seed, maxTokens, rng, poem, cs)
    requires LineAt(table, index, starters, seed, maxTokens, rng, line, cs[|poem|], c)
    ensures PoemDrawn(table, index, starters, seed, maxTokens, rng, poem + [line], cs + [c])
  {
    var p, d := poem + [line], cs + [c];
    forall i | 0 <= i < |poem| ensures LineAt(table, index, starters, seed, maxTokens, rng, p[i], d[i], d[i + 1]) {
      assert p[i] == poem[i] && d[i] == cs[i] && d[i + 1] == cs[i + 1];
    }
    assert p[|poem|] == line && d[|poem|] == cs[|poem|] && d[|poem| + 1] == c;
  }

  /** Every token of a drawn line carries a probability in (0, 1]. */
  lemma DrawnProbabilities(table: Table, index: Index, start: string, tokens: seq<PoemToken>, rng: nat -> Draw, c0: nat)
    requires Weighted(table) && LineDrawn(table, index, start, tokens, rng, c0)
    ensures forall k :: 0 <= k < |tokens| ==> 0.0 < tokens[k].probability <= 1.0
  {
    forall k | 1 <= k < |tokens| ensures 0.0 < tokens[k].probability <= 1.0 {
      DrawnTokensFollow(table, index, start, tokens, rng, c0, k);
      var a, t := tokens[k - 1].text, tokens[k].text;
      if a != "" || IsTerminal(t) {
        var i :| 0 <= i < |table.vals[a]| && table.vals[a][i].0 == t;
        var j := FirstEntry(table.vals[a], t).value;
        WeightShare(table.vals[a], j);
      }
    }
  }

  /** Two lines drawn from the same start and the same draws agree on every position both have. */
  lemma {:induction false} DrawnLinesAgree(table: Table, index: Index, start: string, t1: seq<PoemToken>, t2: seq<PoemToken>,
                                           rng: nat -> Draw, c0: nat, k: nat)
    requires Weighted(table) && LineDrawn(table, index, start, t1, rng, c0) && LineDrawn(table, index, start, t2, rng, c0)
    requires k < |t1| && k < |t2|
    ensures t1[k] == t2[k]
  {
    if k > 0 {
      DrawnLinesAgree(table, index, start, t1, t2, rng, c0, k - 1);
      assert DrawnAt(table, index, t1, rng, c0, k) && DrawnAt(table, index, t2, rng, c0, k);
    }
  }

  /** A line whose last token goes on, is no break point and was not cut at the limit has not ended. */
  lemma GoesOn(table: Table, tokens: seq<PoemToken>, maxTokens: int, rng: nat -> Draw, c0: nat, c: nat)
    requires |tokens| > 0
    requires HasNext(table, tokens[|tokens| - 1].text)
    requires |tokens| >= 2 ==> !IsTerminal(tokens[|tokens| - 1].text)
    requires |tokens| == maxTokens ==> IsTerminal(NextToken(table, tokens[|tokens| - 1].text, rng(c0 + |tokens| - 1)))
    ensures !LineEnded(table, tokens, maxTokens, rng, c0, c)
  {
  }

  /** A line that an ended line of the same draws extends has not ended itself. */
  lemma ExtendedNotEnded(table: Table, index: Index, start: string, t1: seq<PoemToken>, t2: seq<PoemToken>,
                         maxTokens: int, rng: nat -> Draw, c0: nat, n1: nat, n2: nat)
    requires Weighted(table) && LineDrawn(table, index, start, t1, rng, c0) && LineDrawn(table, index, start, t2, rng, c0)
    requires LineEnded(table, t2, maxTokens, rng, c0, n2) && |t1| < |t2|
    ensures !LineEnded(table, t1, maxTokens, rng, c0, n1)
  {
    var m := |t1|;
    var last := t1[m - 1].text;
    DrawnLinesAgree(table, index, start, t1, t2, rng, c0, m - 1);
    assert DrawnAt(table, index, t2, rng, c0, m);
    if 2 <= m {
      assert !IsTerminal(t2[m - 1].text);
    }
    if m == maxTokens {
      assert |t2| == m + 1;
    }
    GoesOn(table, t1, maxTokens, rng, c0, n1);
  }

  /** A line that has ended cannot be extended into another ended line. */
  lemma EndedNotExtended(table: Table, index: Index, start: string, t1: seq<PoemToken>, t2: seq<PoemToken>,
                         maxTokens: int, rng: nat -> Draw, c0: nat, n1: nat, n2: nat)
    requires Weighted(table) && LineDrawn(table, index, start, t1, rng, c0) && LineDrawn(table, index, start, t2, rng, c0)
    requires LineEnded(table, t1, maxTokens, rng, c0, n1) && LineEnded(table, t2, maxTokens, rng, c0, n2)
    ensures |t2| <= |t1|
  {
    if |t2| > |t1| {
      ExtendedNotEnded(table, index, start, t1, t2, maxTokens, rng, c0, n1, n2);
    }
  }

  /**
   * The draws decide the line: two ended lines drawn from the same start and
   * the same draws are equal, and so are the cursors after them.
   */
  lemma LineDetermined(table: Table, index: Index, start: string, t1: seq<PoemToken>, t2: seq<PoemToken>,
                       maxTokens: int, rng: nat -> Draw, c0: nat, n1: nat, n2: nat)
    requires Weighted(table) && LineDrawn(table, index, start, t1, rng, c0) && LineDrawn(table, index, start, t2, rng, c0)
    requires LineEnded(table, t1, maxTokens, rng, c0, n1) && LineEnded(table, t2, maxTokens, rng, c0, n2)
    ensures t1 == t2 && n1 == n2
  {
    EndedNotExtended(table, index, start, t1, t2, maxTokens, rng, c0, n1, n2);
    EndedNotExtended(table, index, start, t2, t1, maxTokens, rng, c0, n2, n1);
    forall k | 0 <= k < |t1| ensures t1[k] == t2[k] {
      DrawnLinesAgree(table, index, start, t1, t2, rng, c0, k);
    }
  }

  /** Two lines of the poem drawn at the same cursor are equal, and so are the cursors after them. */
  lemma LineAtDetermined(table: Table, index: Index, starters: seq<string>, seed: string, maxTokens: int,
                         rng: nat -> Draw, l1: PoemLine, l2: PoemLine, c: nat, n1: nat, n2: nat)
    requires Weighted(table)
    requires LineAt(table, index, starters, seed, maxTokens, rng, l1, c, n1)
    requires LineAt(table, index, starters, seed, maxTokens, rng, l2, c, n2)
    ensures l1 == l2 && n1 == n2
  {
    var s := c + SeedDraws(table, seed);
    var start := FindSeed(table, starters, seed, rng(c)).value;
    LineDetermined(table, index, start, l1.tokens, l2.tokens, maxTokens, rng, s, n1, n2);
  }

  /** Two poems drawn from the same stream reach the same cursor after the same number of lines. */
  lemma {:induction false} CursorsAgree(table: Table, index: Index, starters: seq<string>, seed: string, maxTokens: int,
                                        rng: nat -> Draw, p1: seq<PoemLine>, cs1: seq<nat>, p2: seq<PoemLine>, cs2: seq<nat>, n: nat)
    requires Weighted(table)
    requires PoemDrawn(table, index, starters, seed, maxTokens, rng, p1, cs1)
    requires PoemDrawn(table, index, starters, seed, maxTokens, rng, p2, cs2)
    requires n <= |p1| && n <= |p2|
    ensures cs1[n] == cs2[n]
  {
    if n > 0 {
      CursorsAgree(table, index, starters, seed, maxTokens, rng, p1, cs1, p2, cs2, n - 1);
      LineAtDetermined(table, index, starters, seed, maxTokens, rng, p1[n - 1], p2[n - 1], cs1[n - 1], cs1[n], cs2[n]);
    }
  }

  /**
   * The draws decide the poem: two poems of the same number of lines drawn
   * from the same stream are equal, line by line and cursor by cursor.
   */
  lemma PoemDetermined(table: Table, index: Index, starters: seq<string>, seed: string, maxTokens: int,
                       rng: nat -> Draw, p1: seq<PoemLine>, cs1: seq<nat>, p2: seq<PoemLine>, cs2: seq<nat>)
    requires Weighted(table)
    requires PoemDrawn(table, index, starters, seed, maxTokens, rng, p1, cs1)
    requires PoemDrawn(table, index, starters, seed, maxTokens, rng, p2, cs2)
    requires |p1| == |p2|
    ensures p1 == p2 && cs1 == cs2
  {
    forall i | 0 <= i <= |p1| ensures cs1[i] == cs2[i] {
      CursorsAgree(table, index, starters, seed, maxTokens, rng, p1, cs1, p2, cs2, i);
    }
    forall i | 0 <= i < |p1| ensures p1[i] == p2[i] {
      LineAtDetermined(table, index, starters, seed, maxTokens, rng, p1[i], p2[i], cs1[i], cs1[i + 1], cs2[i + 1]);
    }
  }

  /**
   * Reading a drawn line: every token after the first is a listed successor of
   * the one before it, recorded with that predecessor and its probability.
   */
  lemma DrawnTokensFollow(table: Table, index: Index, start: string, tokens: seq<PoemToken>, rng: nat -> Draw, c0: nat, k: nat)
    requires Weighted(table) && LineDrawn(table, index, start, tokens, rng, c0) && 1 <= k < |tokens|
    ensures IsSuccessor(table, tokens[k - 1].text, tokens[k].text)
    ensures tokens[k].prevToken == Some(tokens[k - 1].text)
    ensures tokens[k].probability == TokenProbability(table, tokens[k - 1].text, tokens[k].text)
  {
    assert DrawnAt(table, index, tokens, rng, c0, k);
  }

  // ---- The engine over the data the build emits ----

  /** The emitted table meets the engine's assumption: every list is non-empty with positive counts. */
  lemma CompiledWeighted(flows: seq<seq<string>>)
    ensures Weighted(MarkovTable.CompiledTable(flows))
    ensures forall a :: a in MarkovTable.CompiledTable(flows).vals ==> HasNext(MarkovTable.CompiledTable(flows), a)
  {
    MarkovTable.CompiledWellFormed(flows);
  }

  /**
   * Over the emitted table and starters, findSeed always yields a token with
   * successors, whatever the seed word and the draw.
   */
  lemma CompiledSeedHasNext(flows: seq<seq<string>>, seed: string, u: Draw)
    requires MarkovChain.AllLong(flows)
    ensures var table := MarkovTable.CompiledTable(flows);
      var r := FindSeed(table, MarkovTable.UniqueStarters(MarkovChain.Heads(flows)), seed, u);
      r.Some? ==> HasNext(table, r.value)
  {
    var table := MarkovTable.CompiledTable(flows);
    var starters := MarkovTable.UniqueStarters(MarkovChain.Heads(flows));
    CompiledWeighted(flows);
    MarkovTable.CompiledStarters(flows);
  }
}
