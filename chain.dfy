/**
 * The Markov chain pass of the build script (scripts/build-data.js): every
 * sentence that glues into two or more units contributes its first unit as a
 * starter and each pair of neighbouring units as one transition.
 */
module MarkovChain {
  import opened Wrappers
  import opened Seqs
  import opened OrderedMaps
  import opened Types
  import opened Flow

  /** A cleaned sentence shorter than this is not tokenized. */
  const MinCleanLength: nat := 5

  // ---- Which sentences contribute ----

  /** The units a sentence contributes, or None when it is skipped. */
  function SentenceFlow(s: string, tokenize: string -> seq<Morpheme>): Option<seq<string>> {
    var clean := CleanSentence(s);
    if |clean| < MinCleanLength then None
    else
      var f := FlowOf(tokenize(clean));
      if |f| < 2 then None else Some(f)
  }

  /** Every contribution has two units or more. */
  ghost predicate AllLong(flows: seq<seq<string>>) {
    forall i :: 0 <= i < |flows| ==> |flows[i]| >= 2
  }

  /** The contributions so far, followed by the sentence's own if it has one. */
  function Contributed(flows: seq<seq<string>>, s: string, tokenize: string -> seq<Morpheme>): (r: seq<seq<string>>)
    ensures AllLong(flows) ==> AllLong(r)
  {
    match SentenceFlow(s, tokenize)
    case Some(f) => flows + [f]
    case None => flows
  }

  /** The contributions so far, followed by those of the sentences ss in order. */
  function FlowsAfter(flows: seq<seq<string>>, ss: seq<string>, tokenize: string -> seq<Morpheme>): (r: seq<seq<string>>)
    ensures AllLong(flows) ==> AllLong(r)
  {
    if ss == [] then flows
    else Contributed(FlowsAfter(flows, ss[..|ss| - 1], tokenize), ss[|ss| - 1], tokenize)
  }

  /**
   * The contributions of every plateau, in the order of ps; main passes the
   * plateaus sorted by id (Build.CompileCorpus).
   */
  function CorpusFlows(ps: seq<Plateau>, tokenize: string -> seq<Morpheme>): (r: seq<seq<string>>)
    ensures AllLong(r)
  {
    if ps == [] then []
    else FlowsAfter(CorpusFlows(ps[..|ps| - 1], tokenize), Sentences(ps[|ps| - 1].body), tokenize)
  }

  /** The first unit of every contribution. */
  function Heads(flows: seq<seq<string>>): (r: seq<string>)
    requires AllLong(flows)
    ensures |r| == |flows|
  {
    seq(|flows|, i requires 0 <= i < |flows| => flows[i][0])
  }

  /** The neighbouring pairs of one contribution. */
  function Pairs(f: seq<string>): (r: seq<(string, string)>)
    ensures |f| >= 1 ==> |r| == |f| - 1
  {
    seq(if f == [] then 0 else |f| - 1, i requires 0 <= i < |f| - 1 => (f[i], f[i + 1]))
  }

  /** The neighbouring pairs of all contributions, in the order they are met. */
  function AllPairs(flows: seq<seq<string>>): seq<(string, string)> {
    if flows == [] then [] else AllPairs(flows[..|flows| - 1]) + Pairs(flows[|flows| - 1])
  }

  // ---- The transition table ----

  /** token -> Map(nextToken -> count). */
  type Table = OMap<OMap<int>>

  ghost predicate TableValid(t: Table) {
    Valid(t) && forall a :: a in t.vals ==> Valid(t.vals[a])
  }

  /** One observed transition a -> b counted. */
  function AddEdge(t: Table, a: string, b: string): (r: Table)
    requires TableValid(t)
    ensures TableValid(r)
  {
    Put(t, a, Bump(Get(t, a, Empty()), b, 1))
  }

  /** The table after counting the pairs in order, starting empty. */
  function Edges(ps: seq<(string, string)>): (t: Table)
    ensures TableValid(t)
  {
    if ps == [] then Empty() else AddEdge(Edges(ps[..|ps| - 1]), ps[|ps| - 1].0, ps[|ps| - 1].1)
  }

  /** The tokens seen after a, each as an increment of one. */
  function Successors(ps: seq<(string, string)>, a: string): seq<(string, int)> {
    if ps == [] then []
    else
      var n := |ps| - 1;
      Successors(ps[..n], a) + (if ps[n].0 == a then [(ps[n].1, 1)] else [])
  }

  lemma EdgesSnoc(ps: seq<(string, string)>, a: string, b: string)
    ensures Edges(ps + [(a, b)]) == AddEdge(Edges(ps), a, b)
  {
    assert (ps + [(a, b)])[..|ps|] == ps;
  }

  lemma TallySnoc(xs: seq<(string, int)>, x: (string, int))
    ensures Tally(xs + [x]) == Bump(Tally(xs), x.0, x.1)
  {
    assert (xs + [x])[..|xs|] == xs;
  }

  lemma {:induction false} EdgesKeys(ps: seq<(string, string)>)
    ensures Edges(ps).keys == Dedup(Words(ps))
  {
    if ps != [] {
      var n := |ps| - 1;
      EdgesKeys(ps[..n]);
      assert Words(ps)[..n] == Words(ps[..n]);
      DedupHas(Words(ps[..n]), ps[n].0);
    }
  }

  lemma GetAddEdge(t: Table, a: string, x: string, y: string)
    requires TableValid(t)
    ensures Get(AddEdge(t, x, y), a, Empty()) == if a == x then Bump(Get(t, x, Empty()), y, 1) else Get(t, a, Empty())
  {
  }

  lemma SuccessorsMiss(ps: seq<(string, string)>, a: string)
    requires ps != [] && ps[|ps| - 1].0 != a
    ensures Successors(ps, a) == Successors(ps[..|ps| - 1], a)
  {
  }

  lemma {:induction false} EdgesAt(ps: seq<(string, string)>, a: string)
    ensures Get(Edges(ps), a, Empty()) == Tally(Successors(ps, a))
  {
    if ps != [] {
      var n := |ps| - 1;
      EdgesAt(ps[..n], a);
      GetAddEdge(Edges(ps[..n]), a, ps[n].0, ps[n].1);
      if a == ps[n].0 {
        TallySnoc(Successors(ps[..n], a), (ps[n].1, 1));
      } else {
        SuccessorsMiss(ps, a);
      }
    }
  }

  /**
   * The table is a tally per token: its tokens are the first tokens of the pairs
   * in order of first appearance, and each token's successor map counts what
   * followed it, in order of first appearance.
   */
  lemma EdgesSpec(ps: seq<(string, string)>)
    ensures Edges(ps).keys == Dedup(Words(ps))
    ensures forall a :: Get(Edges(ps), a, Empty()) == Tally(Successors(ps, a))
  {
    EdgesKeys(ps);
    forall a ensures Get(Edges(ps), a, Empty()) == Tally(Successors(ps, a)) {
      EdgesAt(ps, a);
    }
  }

  lemma {:induction false} SuccessorsWeight(ps: seq<(string, string)>, a: string, b: string)
    ensures WeightOf(Successors(ps, a), b) == Count(ps, (a, b))
  {
    if ps != [] {
      var n := |ps| - 1;
      var init, last := ps[..n], ps[n];
      SuccessorsWeight(init, a, b);
      assert ps == init + [last];
      CountAppend(init, [last], (a, b));
      assert Count([last], (a, b)) == if last == (a, b) then 1 else 0 by {
        assert [last][1..] == [];
      }
      var s := Successors(init, a);
      if last.0 == a {
        var s' := s + [(last.1, 1)];
        assert Successors(ps, a) == s';
        assert s'[..|s|] == s;
        assert WeightOf(s', b) == WeightOf(s, b) + (if last.1 == b then 1 else 0);
      } else {
        assert Successors(ps, a) == s;
      }
    }
  }

  lemma {:induction false} SuccessorsOne(ps: seq<(string, string)>, a: string)
    ensures forall i :: 0 <= i < |Successors(ps, a)| ==> Successors(ps, a)[i].1 == 1
  {
    if ps != [] {
      SuccessorsOne(ps[..|ps| - 1], a);
    }
  }

  /**
   * Each count in the table is the number of times b directly followed a, and
   * every recorded transition has been seen at least once.
   */
  lemma EdgeCount(ps: seq<(string, string)>, a: string, b: string)
    ensures Get(Get(Edges(ps), a, Empty()), b, 0) == Count(ps, (a, b))
    ensures a in Edges(ps).vals && b in Edges(ps).vals[a].vals ==> Edges(ps).vals[a].vals[b] >= 1
  {
    EdgesSpec(ps);
    TallySpec(Successors(ps, a));
    SuccessorsWeight(ps, a, b);
    SuccessorsOne(ps, a);
    TallyPositive(Successors(ps, a));
  }

  /** Every token in the table has at least one successor. */
  lemma {:induction false} EdgesNonEmpty(ps: seq<(string, string)>)
    ensures forall a :: a in Edges(ps).vals ==> Edges(ps).vals[a].keys != []
  {
    if ps != [] {
      EdgesNonEmpty(ps[..|ps| - 1]);
    }
  }

  /** b directly follows a in one of the contributions. */
  ghost predicate Adjacent(flows: seq<seq<string>>, a: string, b: string) {
    exists i, k :: 0 <= i < |flows| && 0 <= k < |flows[i]| - 1 && flows[i][k] == a && flows[i][k + 1] == b
  }

  /** The pairs are exactly the neighbouring units of the contributions. */
  lemma {:induction false} AllPairsAdjacent(flows: seq<seq<string>>, a: string, b: string)
    ensures (a, b) in AllPairs(flows) <==> Adjacent(flows, a, b)
  {
    if flows != [] {
      var n := |flows| - 1;
      var init, f := flows[..n], flows[n];
      AllPairsAdjacent(init, a, b);
      assert AllPairs(flows) == AllPairs(init) + Pairs(f);
      if (a, b) in Pairs(f) {
        var k :| 0 <= k < |Pairs(f)| && Pairs(f)[k] == (a, b);
        assert flows[n][k] == a && flows[n][k + 1] == b;
      }
      if Adjacent(init, a, b) {
        var i, k :| 0 <= i < |init| && 0 <= k < |init[i]| - 1 && init[i][k] == a && init[i][k + 1] == b;
        assert flows[i] == init[i];
      }
      if Adjacent(flows, a, b) {
        var i, k :| 0 <= i < |flows| && 0 <= k < |flows[i]| - 1 && flows[i][k] == a && flows[i][k + 1] == b;
        if i < n {
          assert init[i] == flows[i];
        } else {
          assert Pairs(f)[k] == (a, b);
        }
      }
    }
  }

  /**
   * The counts of the table built from the contributions: b is recorded after a
   * exactly when it directly follows a somewhere, and its count is the number of
   * places where it does.
   */
  lemma TransitionCounts(flows: seq<seq<string>>, a: string, b: string)
    ensures Get(Get(Edges(AllPairs(flows)), a, Empty()), b, 0) == Count(AllPairs(flows), (a, b))
    ensures Get(Get(Edges(AllPairs(flows)), a, Empty()), b, 0) > 0 <==> Adjacent(flows, a, b)
  {
    EdgeCount(AllPairs(flows), a, b);
    CountPositive(AllPairs(flows), (a, b));
    AllPairsAdjacent(flows, a, b);
  }

  // ---- The pass ----

  /** The bigram loop of one sentence. */
  method AddBigrams(t0: Table, tokens: seq<string>, ghost done: seq<(string, string)>) returns (t: Table)
    requires t0 == Edges(done)
    ensures t == Edges(done + Pairs(tokens))
  {
    t := t0;
    var i := 0;
    assert done + Pairs(tokens)[..0] == done;
    while i < |tokens| - 1
      invariant 0 <= i <= |Pairs(tokens)|
      invariant t == Edges(done + Pairs(tokens)[..i])
    {
      t := AddBigram(t, tokens[i], tokens[i + 1]);
      BigramStep(done, tokens, i);
      i := i + 1;
    }
    assert Pairs(tokens)[..i] == Pairs(tokens);
  }

  /** One turn of the bigram loop: a's row is created when missing, then b's count in it grows by 1. */
  method AddBigram(t0: Table, a: string, b: string) returns (t: Table)
    requires TableValid(t0)
    ensures t == AddEdge(t0, a, b)
  {
    t := t0;
    if a !in t.vals {
      t := Put(t, a, Empty());
    }
    CreateThenBump(t0, t, a, b);
    var next := Bump(t.vals[a], b, 1);
    t := Put(t, a, next);
  }

  lemma BigramStep(done: seq<(string, string)>, tokens: seq<string>, i: nat)
    requires i < |tokens| - 1
    ensures Edges(done + Pairs(tokens)[..i + 1]) == AddEdge(Edges(done + Pairs(tokens)[..i]), tokens[i], tokens[i + 1])
  {
    var ps := Pairs(tokens);
    assert ps[i] == (tokens[i], tokens[i + 1]);
    assert done + ps[..i + 1] == (done + ps[..i]) + [ps[i]];
    EdgesSnoc(done + ps[..i], tokens[i], tokens[i + 1]);
  }

  /** `if (!transitions.has(a)) transitions.set(a, new Map())` followed by the update of that map. */
  lemma CreateThenBump(t: Table, created: Table, a: string, b: string)
    requires TableValid(t)
    requires created == if a !in t.vals then Put(t, a, Empty()) else t
    ensures TableValid(created) && a in created.vals
    ensures Put(created, a, Bump(created.vals[a], b, 1)) == AddEdge(t, a, b)
  {
    if a !in t.vals {
      var v := Bump(Empty(), b, 1);
      assert created.vals[a := v] == t.vals[a := v];
    }
  }

  lemma AllPairsSnoc(flows: seq<seq<string>>, f: seq<string>)
    ensures AllPairs(flows + [f]) == AllPairs(flows) + Pairs(f)
  {
    assert (flows + [f])[..|flows|] == flows;
  }

  lemma HeadsSnoc(flows: seq<seq<string>>, f: seq<string>)
    requires AllLong(flows) && |f| >= 2
    ensures Heads(flows + [f]) == Heads(flows) + [f[0]]
  {
  }

  lemma FlowsAfterStep(flows: seq<seq<string>>, ss: seq<string>, k: nat, tokenize: string -> seq<Morpheme>)
    requires k < |ss|
    ensures FlowsAfter(flows, ss[..k + 1], tokenize) == Contributed(FlowsAfter(flows, ss[..k], tokenize), ss[k], tokenize)
  {
    assert ss[..k + 1][..k] == ss[..k];
  }

  /** A sentence contributes its flow iff it is long enough once cleaned and glues into two units or more. */
  lemma ContributedCases(flows: seq<seq<string>>, s: string, tokenize: string -> seq<Morpheme>)
    ensures var clean := CleanSentence(s);
      Contributed(flows, s, tokenize) ==
        if |clean| < MinCleanLength || |FlowOf(tokenize(clean))| < 2 then flows else flows + [FlowOf(tokenize(clean))]
  {
  }

  /** The body of the sentence loop: a sentence that is too short or glues into fewer than two units is skipped. */
  method SentencePass(sentence: string, tokenize: string -> seq<Morpheme>, t0: Table, st0: seq<string>, n0: nat,
                      ghost flows: seq<seq<string>>)
    returns (t: Table, starters: seq<string>, total: nat)
    requires AllLong(flows)
    requires t0 == Edges(AllPairs(flows)) && st0 == Heads(flows) && n0 == |flows|
    ensures t == Edges(AllPairs(Contributed(flows, sentence, tokenize)))
    ensures starters == Heads(Contributed(flows, sentence, tokenize))
    ensures total == |Contributed(flows, sentence, tokenize)|
  {
    t, starters, total := t0, st0, n0;
    ContributedCases(flows, sentence, tokenize);
    var clean := CleanSentence(sentence);
    if |clean| < MinCleanLength {
      return;
    }
    var tokens := BuildFlow(tokenize(clean));
    if |tokens| < 2 {
      return;
    }
    total := total + 1;
    HeadsSnoc(flows, tokens);
    starters := starters + [tokens[0]];
    AllPairsSnoc(flows, tokens);
    t := AddBigrams(t, tokens, AllPairs(flows));
  }

  /** The sentence loop of one plateau. */
  method PlateauPass(body: string, tokenize: string -> seq<Morpheme>, t0: Table, st0: seq<string>, n0: nat,
                     ghost done: seq<seq<string>>)
    returns (t: Table, starters: seq<string>, total: nat)
    requires AllLong(done)
    requires t0 == Edges(AllPairs(done)) && st0 == Heads(done) && n0 == |done|
    ensures t == Edges(AllPairs(FlowsAfter(done, Sentences(body), tokenize)))
    ensures starters == Heads(FlowsAfter(done, Sentences(body), tokenize))
    ensures total == |FlowsAfter(done, Sentences(body), tokenize)|
  {
    var sentences := Sentences(body);
    t, starters, total := SentenceLoop(sentences, tokenize, t0, st0, n0, done);
  }

  /** The loop over the sentences, each contributing through SentencePass. */
  method SentenceLoop(sentences: seq<string>, tokenize: string -> seq<Morpheme>, t0: Table, st0: seq<string>, n0: nat,
                      ghost done: seq<seq<string>>)
    returns (t: Table, starters: seq<string>, total: nat)
    requires AllLong(done)
    requires t0 == Edges(AllPairs(done)) && st0 == Heads(done) && n0 == |done|
    ensures t == Edges(AllPairs(FlowsAfter(done, sentences, tokenize)))
    ensures starters == Heads(FlowsAfter(done, sentences, tokenize))
    ensures total == |FlowsAfter(done, sentences, tokenize)|
  {
    t, starters, total := t0, st0, n0;
    ghost var flows := done;
    for k := 0 to |sentences|
      invariant flows == FlowsAfter(done, sentences[..k], tokenize) && AllLong(flows)
      invariant t == Edges(AllPairs(flows)) && starters == Heads(flows) && total == |flows|
    {
      FlowsAfterStep(done, sentences, k, tokenize);
      t, starters, total := SentencePass(sentences[k], tokenize, t, starters, total, flows);
      flows := Contributed(flows, sentences[k], tokenize);
    }
    assert sentences[..|sentences|] == sentences;
  }

  /**
   * The Markov pass of main: the transition counts, the starter list and the
   * number of contributing sentences, over the plateaus in the order given;
   * main runs it over the id-sorted list (Build.CompileCorpus).
   */
  method BuildChain(ps: seq<Plateau>, tokenize: string -> seq<Morpheme>)
    returns (transitions: Table, starters: seq<string>, totalSentences: nat)
    ensures transitions == Edges(AllPairs(CorpusFlows(ps, tokenize)))
    ensures starters == Heads(CorpusFlows(ps, tokenize))
    ensures totalSentences == |CorpusFlows(ps, tokenize)|
  {
    transitions, starters, totalSentences := Empty(), [], 0;
    for j := 0 to |ps|
      invariant transitions == Edges(AllPairs(CorpusFlows(ps[..j], tokenize)))
      invariant starters == Heads(CorpusFlows(ps[..j], tokenize))
      invariant totalSentences == |CorpusFlows(ps[..j], tokenize)|
    {
      assert ps[..j + 1][..j] == ps[..j];
      transitions, starters, totalSentences :=
        PlateauPass(ps[j].body, tokenize, transitions, starters, totalSentences, CorpusFlows(ps[..j], tokenize));
    }
    assert ps[..|ps|] == ps;
  }
}
