/**
 * The order of the passes in the build script's main (scripts/build-data.js):
 * keywords are aggregated over the plateaus in file order, then the plateau
 * list is sorted by id in place and given its backlinks, and the Markov pass
 * and the index pass both run over that sorted list.
 */
module Build {
  import opened Types
  import opened OrderedMaps
  import Backlinks
  import Aggregation
  import MarkovChain
  import MarkovTable
  import Significance
  import TokenIndex

  /** Two plateau lists with the same bodies, position by position. */
  predicate SameBodies(a: seq<Plateau>, b: seq<Plateau>) {
    |a| == |b| && forall i :: 0 <= i < |a| ==> a[i].body == b[i].body
  }

  /** Two plateau lists with the same ids and bodies, position by position. */
  predicate SameIdsAndBodies(a: seq<Plateau>, b: seq<Plateau>) {
    SameBodies(a, b) && forall i :: 0 <= i < |a| ==> a[i].id == b[i].id
  }

  /** The Markov pass reads only the bodies. */
  lemma {:induction false} CorpusFlowsOfBodies(a: seq<Plateau>, b: seq<Plateau>, tokenize: string -> seq<Morpheme>)
    requires SameBodies(a, b)
    ensures MarkovChain.CorpusFlows(a, tokenize) == MarkovChain.CorpusFlows(b, tokenize)
    decreases |a|
  {
    if a != [] {
      var n := |a| - 1;
      CorpusFlowsOfBodies(a[..n], b[..n], tokenize);
      assert a[n].body == b[n].body;
    }
  }

  /** The index pass reads only the ids and the bodies. */
  lemma {:induction false} OccurrencesOfBodies(a: seq<Plateau>, b: seq<Plateau>, tokenize: string -> seq<Morpheme>)
    requires SameIdsAndBodies(a, b)
    ensures TokenIndex.Occurrences(a, tokenize) == TokenIndex.Occurrences(b, tokenize)
    decreases |a|
  {
    if a != [] {
      var n := |a| - 1;
      OccurrencesOfBodies(a[..n], b[..n], tokenize);
      assert a[n].body == b[n].body && a[n].id == b[n].id;
    }
  }

  /**
   * What plateaus.ts holds: the input sorted by id, each record unchanged but for its
   * backlinks, and linkedFrom listing, in ascending order, exactly the plateaus that link to it.
   */
  ghost predicate EmittedPlateaus(out: seq<Plateau>, ps: seq<Plateau>) {
    && |out| == |ps|
    && Backlinks.IdsAscending(out)
    && (forall i :: 0 <= i < |out| ==> out[i].(linkedFrom := []) == Backlinks.SortById(ps)[i].(linkedFrom := []))
    && (forall i, q :: 0 <= i < |out| ==>
          (q in out[i].linkedFrom <==> exists k :: 0 <= k < |out| && out[k].id == q && out[i].id in out[k].linksTo))
    && (forall i :: 0 <= i < |out| ==> Backlinks.StrictlyAscending(out[i].linkedFrom))
  }

  /** The keyword section of main, over the plateaus in file order. */
  method CompileKeywords(ps: seq<Plateau>) returns (keywords: seq<Keyword>)
    ensures keywords == Significance.SignificantKeywords(Aggregation.Aggregate(Aggregation.DocsOf(ps)))
  {
    var all := Aggregation.AggregateKeywords(ps);
    keywords := Significance.SignificantKeywords(all);
  }

  /** The sort by id and the backlinks: the emitted records, which keep each plateau's id and body. */
  method CompileSorted(ps: seq<Plateau>) returns (plateaus: seq<Plateau>)
    ensures EmittedPlateaus(plateaus, ps)
    ensures SameIdsAndBodies(plateaus, Backlinks.SortById(ps)) && Backlinks.IdsAscending(plateaus)
  {
    plateaus := Backlinks.CompilePlateaus(ps);
    ghost var sorted := Backlinks.SortById(ps);
    forall i | 0 <= i < |plateaus| ensures plateaus[i].body == sorted[i].body && plateaus[i].id == sorted[i].id {
      assert plateaus[i].(linkedFrom := []) == sorted[i].(linkedFrom := []);
    }
  }

  /** The Markov section of main, over plateaus with the bodies of sorted. */
  method CompileMarkov(plateaus: seq<Plateau>, ghost sorted: seq<Plateau>, tokenize: string -> seq<Morpheme>)
    returns (table: MarkovTable.Serialized, starters: seq<string>, totalSentences: nat)
    requires SameBodies(plateaus, sorted)
    ensures var flows := MarkovChain.CorpusFlows(sorted, tokenize);
      && table == MarkovTable.CompiledTable(flows)
      && starters == MarkovTable.UniqueStarters(MarkovChain.Heads(flows))
      && totalSentences == |flows|
  {
    var transitions, allStarters;
    transitions, allStarters, totalSentences := MarkovChain.BuildChain(plateaus, tokenize);
    CorpusFlowsOfBodies(plateaus, sorted, tokenize);
    var tokenCount;
    table, tokenCount := MarkovTable.FinalizeTable(transitions);
    starters := MarkovTable.UniqueStarters(allStarters);
  }

  /** The reverse-index section of main, over plateaus with the ids and bodies of sorted. */
  method CompileIndex(plateaus: seq<Plateau>, ghost sorted: seq<Plateau>, tokenize: string -> seq<Morpheme>)
    returns (index: TokenIndex.Index)
    requires SameIdsAndBodies(plateaus, sorted)
    ensures index == TokenIndex.TokenIndexOf(sorted, tokenize)
  {
    var indexCount;
    index, indexCount := TokenIndex.BuildTokenIndex(plateaus, tokenize);
    OccurrencesOfBodies(plateaus, sorted, tokenize);
  }

  /**
   * main after parsing: the keyword aggregation over the files in file order,
   * then the sort by id with backlinks, then the Markov and index passes over
   * the sorted plateaus. Every first-seen order of the chain and the index
   * (the order of MARKOV_TABLE's tokens, of STARTERS and of TOKEN_INDEX's
   * words) is therefore taken over Backlinks.SortById(ps).
   */
  method CompileCorpus(ps: seq<Plateau>, tokenize: string -> seq<Morpheme>)
    returns (plateaus: seq<Plateau>, keywords: seq<Keyword>, table: MarkovTable.Serialized, starters: seq<string>,
             totalSentences: nat, index: TokenIndex.Index)
    ensures keywords == Significance.SignificantKeywords(Aggregation.Aggregate(Aggregation.DocsOf(ps)))
    ensures EmittedPlateaus(plateaus, ps)
    ensures SameIdsAndBodies(plateaus, Backlinks.SortById(ps)) && Backlinks.IdsAscending(plateaus)
    ensures var flows := MarkovChain.CorpusFlows(Backlinks.SortById(ps), tokenize);
      && table == MarkovTable.CompiledTable(flows)
      && starters == MarkovTable.UniqueStarters(MarkovChain.Heads(flows))
      && totalSentences == |flows|
    ensures index == TokenIndex.TokenIndexOf(Backlinks.SortById(ps), tokenize)
  {
    keywords := CompileKeywords(ps);
    plateaus := CompileSorted(ps);
    table, starters, totalSentences := CompileMarkov(plateaus, Backlinks.SortById(ps), tokenize);
    index := CompileIndex(plateaus, Backlinks.SortById(ps), tokenize);
  }
}
