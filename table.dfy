/**
 * The serialised Markov data of the build script (scripts/build-data.js): for
 * every token, its twelve most frequent successors with their counts, and the
 * first 300 distinct sentence starters.
 */
module MarkovTable {
  import opened Seqs
  import opened Sorting
  import opened OrderedMaps
  import opened MarkovChain

  const MaxTransitions: nat := 12
  const MaxStarters: nat := 300

  /** MARKOV_TABLE: token -> [nextToken, count] pairs. */
  type Serialized = OMap<seq<(string, int)>>

  function NextCount(e: (string, int)): int {
    e.1
  }

  /** [...nextMap.entries()].sort((a, b) => b[1] - a[1]).slice(0, 12). */
  function TopTransitions(next: OMap<int>): seq<(string, int)>
    requires Valid(next)
  {
    Take(SortDesc(Entries(next), NextCount), MaxTransitions)
  }

  ghost predicate KeysIn(t: Table, ks: seq<string>) {
    forall i :: 0 <= i < |ks| ==> ks[i] in t.vals
  }

  /** The serialised table after visiting the tokens ks in order. */
  function Finalized(t: Table, ks: seq<string>): (r: Serialized)
    requires TableValid(t) && KeysIn(t, ks)
    ensures Valid(r)
  {
    if ks == [] then Empty()
    else
      var n := |ks| - 1;
      var prev := Finalized(t, ks[..n]);
      var entries := TopTransitions(t.vals[ks[n]]);
      if |entries| > 0 then Put(prev, ks[n], entries) else prev
  }

  /** The tokens of ks with at least one successor, in order. */
  function Kept(t: Table, ks: seq<string>): (r: seq<string>)
    requires KeysIn(t, ks)
    ensures forall i :: 0 <= i < |r| ==> r[i] in ks && t.vals[r[i]].keys != []
  {
    if ks == [] then []
    else
      var n := |ks| - 1;
      Kept(t, ks[..n]) + (if t.vals[ks[n]].keys != [] then [ks[n]] else [])
  }

  /** Every selected pair is a (successor, count) of the map, most frequent first, no successor twice. */
  lemma TopSpec(next: OMap<int>)
    requires Valid(next)
    ensures |TopTransitions(next)| == Min(MaxTransitions, |next.keys|)
    ensures SortedBy(TopTransitions(next), NextCount)
    ensures forall i :: 0 <= i < |TopTransitions(next)| ==>
      TopTransitions(next)[i].0 in next.vals && TopTransitions(next)[i].1 == next.vals[TopTransitions(next)[i].0]
    ensures forall i, j :: 0 <= i < j < |TopTransitions(next)| ==> TopTransitions(next)[i].0 != TopTransitions(next)[j].0
  {
    var es := Entries(next);
    var sorted := SortDesc(es, NextCount);
    var r := TopTransitions(next);
    assert r == sorted[..|r|];
    forall i | 0 <= i < |r| ensures r[i] in es {
      assert r[i] == sorted[i];
      SortDescHas(es, NextCount, sorted[i]);
    }
    forall i | 0 <= i < |r| ensures r[i].0 in next.vals && r[i].1 == next.vals[r[i].0] {
      var m :| 0 <= m < |es| && es[m] == r[i];
    }
    assert Distinct(es);
    DistinctMultiset(es, sorted);
    forall i, j | 0 <= i < j < |r| ensures r[i].0 != r[j].0 {
      assert r[i] == sorted[i] && r[j] == sorted[j];
    }
    forall i, j | 0 <= i < j < |r| ensures NextCount(r[i]) >= NextCount(r[j]) {
      assert r[i] == sorted[i] && r[j] == sorted[j];
    }
  }

  /** A successor that was cut counts no more than any kept one, and only all twelve places being taken cuts it. */
  lemma TopCut(next: OMap<int>, b: string)
    requires Valid(next) && b in next.vals
    requires forall i :: 0 <= i < |TopTransitions(next)| ==> TopTransitions(next)[i].0 != b
    ensures |TopTransitions(next)| == MaxTransitions
    ensures forall i :: 0 <= i < |TopTransitions(next)| ==> TopTransitions(next)[i].1 >= next.vals[b]
  {
    var es := Entries(next);
    var r := TopTransitions(next);
    var m :| 0 <= m < |next.keys| && next.keys[m] == b;
    var e := es[m];
    assert e == (b, next.vals[b]);
    assert e !in r;
    CutFromSorted(es, NextCount, MaxTransitions, e);
    var sorted := SortDesc(es, NextCount);
    forall i | 0 <= i < |r| ensures r[i].1 >= next.vals[b] {
      assert r[i] == sorted[i];
    }
  }

  /** Every token of ks is in the table with at least one successor. */
  ghost predicate AllHaveSuccessors(t: Table, ks: seq<string>) {
    forall i :: 0 <= i < |ks| ==> ks[i] in t.vals && t.vals[ks[i]].keys != []
  }

  /** Only tokens of ks with successors are kept; when all have one, all are kept. */
  lemma {:induction false} KeptIsSubsequence(t: Table, ks: seq<string>)
    requires KeysIn(t, ks)
    ensures forall i :: 0 <= i < |Kept(t, ks)| ==> Kept(t, ks)[i] in ks
    ensures AllHaveSuccessors(t, ks) ==> Kept(t, ks) == ks
  {
    if AllHaveSuccessors(t, ks) {
      KeptAll(t, ks);
    }
  }

  lemma {:induction false} KeptAll(t: Table, ks: seq<string>)
    requires AllHaveSuccessors(t, ks)
    ensures KeysIn(t, ks) && Kept(t, ks) == ks
  {
    if ks != [] {
      var n := |ks| - 1;
      var init := ks[..n];
      assert AllHaveSuccessors(t, init) by {
        forall i | 0 <= i < |init| ensures init[i] in t.vals && t.vals[init[i]].keys != [] {
          assert init[i] == ks[i];
        }
      }
      KeptAll(t, init);
      assert t.vals[ks[n]].keys != [];
      assert Kept(t, ks) == Kept(t, init) + [ks[n]];
      assert ks == init + [ks[n]];
    }
  }

  /**
   * The serialised table keeps, in order, the tokens that have a successor, and
   * maps each to its top transitions.
   */
  lemma {:induction false} FinalizedSpec(t: Table, ks: seq<string>)
    requires TableValid(t) && KeysIn(t, ks) && Distinct(ks)
    ensures Finalized(t, ks).keys == Kept(t, ks)
    ensures forall a :: a in Finalized(t, ks).vals ==> a in t.vals && Finalized(t, ks).vals[a] == TopTransitions(t.vals[a])
  {
    if ks != [] {
      var n := |ks| - 1;
      var prev := Finalized(t, ks[..n]);
      FinalizedSpec(t, ks[..n]);
      assert ks[n] !in ks[..n];
      assert ks[n] !in prev.vals;
      TopSpec(t.vals[ks[n]]);
    }
  }

  lemma FinalizedSnoc(t: Table, ks: seq<string>, i: nat)
    requires TableValid(t) && KeysIn(t, ks) && i < |ks|
    ensures KeysIn(t, ks[..i]) && KeysIn(t, ks[..i + 1])
    ensures Finalized(t, ks[..i + 1]) ==
      var entries := TopTransitions(t.vals[ks[i]]);
      if |entries| > 0 then Put(Finalized(t, ks[..i]), ks[i], entries) else Finalized(t, ks[..i])
  {
    assert ks[..i + 1][..i] == ks[..i];
  }

  lemma FinalizedFresh(t: Table, ks: seq<string>, i: nat)
    requires TableValid(t) && KeysIn(t, ks) && Distinct(ks) && i < |ks|
    ensures KeysIn(t, ks[..i])
    ensures ks[i] !in Finalized(t, ks[..i]).vals
  {
    FinalizedSpec(t, ks[..i]);
    assert ks[i] !in ks[..i];
  }

  /** The conversion loop of main: each token with successors gets its top twelve, and is counted. */
  method FinalizeTable(transitions: Table) returns (table: Serialized, tokenCount: nat)
    requires TableValid(transitions)
    ensures table == Finalized(transitions, transitions.keys)
    ensures tokenCount == |table.keys|
  {
    table, tokenCount := Empty(), 0;
    var keys := transitions.keys;
    for i := 0 to |keys|
      invariant KeysIn(transitions, keys[..i])
      invariant table == Finalized(transitions, keys[..i])
      invariant tokenCount == |table.keys|
    {
      FinalizedSnoc(transitions, keys, i);
      FinalizedFresh(transitions, keys, i);
      var token := keys[i];
      var entries := TopTransitions(transitions.vals[token]);
      if |entries| > 0 {
        table := Put(table, token, entries);
        tokenCount := tokenCount + 1;
      }
    }
    assert keys[..|keys|] == keys;
  }

  /** [...new Set(starterTokens)].slice(0, 300). */
  function UniqueStarters(starters: seq<string>): seq<string> {
    Take(Dedup(starters), MaxStarters)
  }

  /**
   * The starters are distinct starter tokens in order of first use (wherever a later
   * one occurs, every earlier one has occurred before it), at most 300, and a starter
   * is missing only when all 300 places are taken.
   */
  lemma UniqueStartersSpec(starters: seq<string>)
    ensures Distinct(UniqueStarters(starters)) && |UniqueStarters(starters)| <= MaxStarters
    ensures forall i :: 0 <= i < |UniqueStarters(starters)| ==> UniqueStarters(starters)[i] in starters
    ensures forall s :: s in starters && s !in UniqueStarters(starters) ==> |UniqueStarters(starters)| == MaxStarters
    ensures forall i, j, k :: 0 <= i < j < |UniqueStarters(starters)| && 0 <= k < |starters| && starters[k] == UniqueStarters(starters)[j]
              ==> UniqueStarters(starters)[i] in starters[..k]
  {
    var d := Dedup(starters);
    var r := UniqueStarters(starters);
    forall i, j, k | 0 <= i < j < |r| && 0 <= k < |starters| && starters[k] == r[j] ensures r[i] in starters[..k] {
      assert r[i] == d[i] && r[j] == d[j];
      DedupFirstUse(starters, i, j, k);
    }
    forall s | s in starters && s !in r ensures |r| == MaxStarters {
      DedupHas(starters, s);
    }
  }

  /** What the runtime relies on: every listed token has a successor, and every count is positive. */
  ghost predicate WellFormedTable(table: Serialized) {
    && Valid(table)
    && forall a :: a in table.vals ==> |table.vals[a]| >= 1 && forall i :: 0 <= i < |table.vals[a]| ==> table.vals[a][i].1 >= 1
  }

  // ---- The data the build emits ----

  /** MARKOV_TABLE as built from the contributions. */
  function CompiledTable(flows: seq<seq<string>>): Serialized {
    var t := Edges(AllPairs(flows));
    Finalized(t, t.keys)
  }

  /** Every token that was followed by something is listed, in order of first occurrence, and no other. */
  lemma CompiledKeys(flows: seq<seq<string>>)
    ensures CompiledTable(flows).keys == Dedup(Words(AllPairs(flows)))
  {
    EdgesNonEmpty(AllPairs(flows));
    EdgesKeys(AllPairs(flows));
    FinalizedAll(Edges(AllPairs(flows)));
  }

  /** When every token has a successor, the serialised table lists all the tokens, in order. */
  lemma FinalizedAll(t: Table)
    requires TableValid(t) && forall a :: a in t.vals ==> t.vals[a].keys != []
    ensures KeysIn(t, t.keys) && Finalized(t, t.keys).keys == t.keys
  {
    FinalizedSpec(t, t.keys);
    KeptAll(t, t.keys);
  }

  /** The list of a token in the table of the build. */
  lemma CompiledList(flows: seq<seq<string>>, a: string)
    requires a in CompiledTable(flows).vals
    ensures var t := Edges(AllPairs(flows));
      a in t.vals && CompiledTable(flows).vals[a] == TopTransitions(t.vals[a])
  {
    var t := Edges(AllPairs(flows));
    FinalizedSpec(t, t.keys);
  }

  /**
   * Each token's list holds one to twelve distinct successors, most frequent first,
   * each with the number of times it directly follows the token in the corpus.
   */
  lemma CompiledEntries(flows: seq<seq<string>>, a: string)
    requires a in CompiledTable(flows).vals
    ensures var list := CompiledTable(flows).vals[a];
      && 1 <= |list| <= MaxTransitions
      && SortedBy(list, NextCount)
      && (forall i, j :: 0 <= i < j < |list| ==> list[i].0 != list[j].0)
      && forall i :: 0 <= i < |list| ==>
        list[i].1 == Count(AllPairs(flows), (a, list[i].0)) && list[i].1 >= 1 && Adjacent(flows, a, list[i].0)
  {
    var t := Edges(AllPairs(flows));
    CompiledList(flows, a);
    TopShape(flows, a);
    TopCounts(flows, a);
  }

  /** The top list of a's successor map is non-empty, count-descending and names each successor once. */
  lemma TopShape(flows: seq<seq<string>>, a: string)
    requires a in Edges(AllPairs(flows)).vals
    ensures var list := TopTransitions(Edges(AllPairs(flows)).vals[a]);
      && 1 <= |list| <= MaxTransitions
      && SortedBy(list, NextCount)
      && (forall i, j :: 0 <= i < j < |list| ==> list[i].0 != list[j].0)
  {
    var next := Edges(AllPairs(flows)).vals[a];
    assert next.keys != [] by {
      EdgesNonEmpty(AllPairs(flows));
    }
    TopSpec(next);
  }

  /** Each pair (b, n) of the top list of a's successor map says that b follows a exactly n >= 1 times. */
  lemma TopCounts(flows: seq<seq<string>>, a: string)
    requires a in Edges(AllPairs(flows)).vals
    ensures var list := TopTransitions(Edges(AllPairs(flows)).vals[a]);
      forall i :: 0 <= i < |list| ==>
        list[i].1 == Count(AllPairs(flows), (a, list[i].0)) && list[i].1 >= 1 && Adjacent(flows, a, list[i].0)
  {
    var next := Edges(AllPairs(flows)).vals[a];
    var list := TopTransitions(next);
    TopSpec(next);
    forall i | 0 <= i < |list|
      ensures list[i].1 == Count(AllPairs(flows), (a, list[i].0)) && list[i].1 >= 1 && Adjacent(flows, a, list[i].0)
    {
      EntryCount(flows, a, list[i].0);
    }
  }

  /** A count in the table of the build is the number of times b follows a, which it does. */
  lemma EntryCount(flows: seq<seq<string>>, a: string, b: string)
    requires a in Edges(AllPairs(flows)).vals && b in Edges(AllPairs(flows)).vals[a].vals
    ensures var n := Edges(AllPairs(flows)).vals[a].vals[b];
      n == Count(AllPairs(flows), (a, b)) && n >= 1 && Adjacent(flows, a, b)
  {
    TransitionCounts(flows, a, b);
    EdgeCount(AllPairs(flows), a, b);
  }

  /**
   * The cap keeps the most frequent successors: a successor of a that is not
   * listed follows a no more often than any listed one, and all twelve places are taken.
   */
  lemma CompiledTop(flows: seq<seq<string>>, a: string, b: string)
    requires a in CompiledTable(flows).vals && Adjacent(flows, a, b)
    requires forall i :: 0 <= i < |CompiledTable(flows).vals[a]| ==> CompiledTable(flows).vals[a][i].0 != b
    ensures |CompiledTable(flows).vals[a]| == MaxTransitions
    ensures forall i :: 0 <= i < |CompiledTable(flows).vals[a]| ==>
      CompiledTable(flows).vals[a][i].1 >= Count(AllPairs(flows), (a, b))
  {
    CompiledList(flows, a);
    TopCutCount(flows, a, b);
  }

  /** TopCut for a's successor map, with the count of b read as the number of times b follows a. */
  lemma TopCutCount(flows: seq<seq<string>>, a: string, b: string)
    requires a in Edges(AllPairs(flows)).vals && Adjacent(flows, a, b)
    requires var list := TopTransitions(Edges(AllPairs(flows)).vals[a]);
      forall i :: 0 <= i < |list| ==> list[i].0 != b
    ensures var list := TopTransitions(Edges(AllPairs(flows)).vals[a]);
      |list| == MaxTransitions && forall i :: 0 <= i < |list| ==> list[i].1 >= Count(AllPairs(flows), (a, b))
  {
    SuccessorCount(flows, a, b);
    TopCut(Edges(AllPairs(flows)).vals[a], b);
  }

  /** When b follows a, b is among a's successors, with the number of times it follows a. */
  lemma SuccessorCount(flows: seq<seq<string>>, a: string, b: string)
    requires a in Edges(AllPairs(flows)).vals && Adjacent(flows, a, b)
    ensures var next := Edges(AllPairs(flows)).vals[a];
      b in next.vals && next.vals[b] == Count(AllPairs(flows), (a, b))
  {
    var t := Edges(AllPairs(flows));
    var next := t.vals[a];
    TransitionCounts(flows, a, b);
    assert Get(t, a, Empty()) == next;
    assert Get(next, b, 0) > 0;
  }

  /** The table of the build satisfies what the runtime relies on. */
  lemma CompiledWellFormed(flows: seq<seq<string>>)
    ensures WellFormedTable(CompiledTable(flows))
  {
    forall a | a in CompiledTable(flows).vals
      ensures |CompiledTable(flows).vals[a]| >= 1
      ensures forall i :: 0 <= i < |CompiledTable(flows).vals[a]| ==> CompiledTable(flows).vals[a][i].1 >= 1
    {
      CompiledEntries(flows, a);
    }
  }

  /** Every starter of the build has an entry in its table, so a walk from a starter can always take a step. */
  lemma CompiledStarters(flows: seq<seq<string>>)
    requires AllLong(flows)
    ensures forall s :: s in UniqueStarters(Heads(flows)) ==> s in CompiledTable(flows).vals
  {
    CompiledKeys(flows);
    UniqueStartersSpec(Heads(flows));
    forall s | s in UniqueStarters(Heads(flows)) ensures s in CompiledTable(flows).vals {
      var i :| 0 <= i < |UniqueStarters(Heads(flows))| && UniqueStarters(Heads(flows))[i] == s;
      HeadIsFirst(flows, s);
    }
  }

  /** The first unit of a contribution is followed by its second, so it opens a pair. */
  lemma HeadIsFirst(flows: seq<seq<string>>, s: string)
    requires AllLong(flows) && s in Heads(flows)
    ensures s in Dedup(Words(AllPairs(flows)))
  {
    var ps := AllPairs(flows);
    var i :| 0 <= i < |flows| && Heads(flows)[i] == s;
    AllPairsAdjacent(flows, s, flows[i][1]);
    var k :| 0 <= k < |ps| && ps[k] == (s, flows[i][1]);
    assert Words(ps)[k] == s;
    DedupHas(Words(ps), s);
  }
}
