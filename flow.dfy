/**
 * The sentence pipeline of the Markov table builder (scripts/build-data.js):
 * bodies are cut into sentences, cleaned of section references and keyword
 * brackets, and each sentence's morphemes are glued into "units": a content
 * word followed by the particles and auxiliaries that come after it.
 */
module Flow {
  import opened Text
  import opened Seqs
  import opened Types

  // ---- Cleaning ----

  /** The length of the run of digits starting at i. */
  function DigitRun(s: string, i: nat): (n: nat)
    requires i <= |s|
    ensures i + n <= |s|
    ensures forall k :: i <= k < i + n ==> IsDigit(s[k])
    ensures i + n < |s| ==> !IsDigit(s[i + n])
    decreases |s| - i
  {
    if i == |s| || !IsDigit(s[i]) then 0 else 1 + DigitRun(s, i + 1)
  }

  /** .replace(/(?:→)?§\d+/g, ''): every section reference, with an arrow in front if there is one, is removed. */
  function StripRefs(s: string): (r: string)
    ensures |r| <= |s|
    decreases |s|
  {
    if s == [] then []
    else if |s| >= 3 && s[0] == '→' && s[1] == '§' && IsDigit(s[2]) then StripRefs(s[2 + DigitRun(s, 2)..])
    else if |s| >= 2 && s[0] == '§' && IsDigit(s[1]) then StripRefs(s[1 + DigitRun(s, 1)..])
    else [s[0]] + StripRefs(s[1..])
  }

  /** No '§' directly followed by a digit. */
  predicate NoRefs(s: string) {
    forall k :: 0 <= k < |s| - 1 ==> !(s[k] == '§' && IsDigit(s[k + 1]))
  }

  lemma {:induction false} StripRefsHead(s: string)
    requires s == [] || !IsDigit(s[0])
    ensures StripRefs(s) == [] || !IsDigit(StripRefs(s)[0])
    decreases |s|
  {
    if s != [] {
      if |s| >= 3 && s[0] == '→' && s[1] == '§' && IsDigit(s[2]) {
        StripRefsHead(s[2 + DigitRun(s, 2)..]);
      } else if |s| >= 2 && s[0] == '§' && IsDigit(s[1]) {
        StripRefsHead(s[1 + DigitRun(s, 1)..]);
      }
    }
  }

  /** The stripping is complete: no reference is left, not even one formed by the removal. */
  lemma {:induction false} StripRefsComplete(s: string)
    ensures NoRefs(StripRefs(s))
    decreases |s|
  {
    if s != [] {
      if |s| >= 3 && s[0] == '→' && s[1] == '§' && IsDigit(s[2]) {
        StripRefsComplete(s[2 + DigitRun(s, 2)..]);
      } else if |s| >= 2 && s[0] == '§' && IsDigit(s[1]) {
        StripRefsComplete(s[1 + DigitRun(s, 1)..]);
      } else {
        StripRefsComplete(s[1..]);
        var rest := StripRefs(s[1..]);
        if s[0] == '§' {
          StripRefsHead(s[1..]);
        }
        assert StripRefs(s) == [s[0]] + rest;
        assert forall k :: 1 <= k < |rest| ==> ([s[0]] + rest)[k] == rest[k - 1];
      }
    }
  }

  /** Text without a '§' is left as it is. */
  lemma {:induction false} StripRefsKeeps(s: string)
    requires '§' !in s
    ensures StripRefs(s) == s
    decreases |s|
  {
    if s != [] {
      assert s[0] != '§' && '§' !in s[1..];
      StripRefsKeeps(s[1..]);
    }
  }

  predicate IsBracket(c: char) {
    c == '【' || c == '】'
  }

  /** .replace(/【|】/g, ''). */
  function DropBrackets(s: string): (r: string)
    ensures |r| <= |s|
    ensures forall i :: 0 <= i < |r| ==> !IsBracket(r[i])
  {
    if s == [] then [] else (if IsBracket(s[0]) then [] else [s[0]]) + DropBrackets(s[1..])
  }

  /** A sentence as it goes to the tokenizer: references and brackets removed, then trimmed. */
  function CleanSentence(s: string): string {
    Trim(DropBrackets(StripRefs(s)))
  }

  predicate LongEnough(s: string) {
    |Trim(s)| > 5
  }

  /** p.body.split(/[。\n]/).filter(s => s.trim().length > 5). */
  function Sentences(body: string): (r: seq<string>)
    ensures forall i :: 0 <= i < |r| ==> |Trim(r[i])| > 5 && '。' !in r[i] && '\n' !in r[i]
  {
    var r := Filter(Split(body, {'。', '\n'}), LongEnough);
    forall i | 0 <= i < |r| ensures '。' !in r[i] && '\n' !in r[i] {
      var k :| 0 <= k < |Split(body, {'。', '\n'})| && Split(body, {'。', '\n'})[k] == r[i];
    }
    r
  }

  // ---- Units ----

  const KeepPos: set<string> := {"名詞", "動詞", "形容詞", "副詞", "接続詞", "感動詞"}
  const ExcludeSubPos: set<string> := {"非自立", "接尾", "数", "代名詞"}

  /** What the token loop does with a morpheme. */
  datatype Role =
    | Skip  // blank surface, or a part of speech that is neither kept nor glued
    | Head  // a content word: starts a new unit
    | Tail  // a particle or auxiliary: joins the unit before it

  function RoleOf(m: Morpheme): Role {
    if Trim(m.surface) == [] then Skip
    else if m.pos in KeepPos && m.subPos !in ExcludeSubPos then Head
    else if m.pos == "助詞" || m.pos == "助動詞" then Tail
    else Skip
  }

  /** A morpheme as the token loop sees it: what it does with it, and its surface. */
  datatype Tagged = Tagged(role: Role, surface: string)

  function Tag(ms: seq<Morpheme>): (ts: seq<Tagged>)
    ensures |ts| == |ms|
    ensures forall i :: 0 <= i < |ms| ==> ts[i] == Tagged(RoleOf(ms[i]), ms[i].surface)
  {
    seq(|ms|, i requires 0 <= i < |ms| => Tagged(RoleOf(ms[i]), ms[i].surface))
  }

  /** The units of a tagged sequence: heads start one, tails join the last one, the rest is dropped. */
  function Units(ts: seq<Tagged>): seq<string> {
    if ts == [] then []
    else
      var prev, t := Units(ts[..|ts| - 1]), ts[|ts| - 1];
      match t.role
      case Head => prev + [t.surface]
      case Tail => if prev == [] then prev else prev[..|prev| - 1] + [prev[|prev| - 1] + t.surface]
      case Skip => prev
  }

  /** The units of a morpheme sequence. */
  function FlowOf(ms: seq<Morpheme>): seq<string> {
    Units(Tag(ms))
  }

  lemma TagSnoc(ms: seq<Morpheme>, i: nat)
    requires i < |ms|
    ensures Tag(ms[..i + 1]) == Tag(ms[..i]) + [Tagged(RoleOf(ms[i]), ms[i].surface)]
  {
    var a, b := Tag(ms[..i + 1]), Tag(ms[..i]) + [Tagged(RoleOf(ms[i]), ms[i].surface)];
    assert |a| == |b|;
    forall k | 0 <= k < |a| ensures a[k] == b[k] {
      assert ms[..i + 1][k] == ms[k];
      if k < i {
        assert ms[..i][k] == ms[k];
      }
    }
  }

  /**
   * The token loop for one sentence: blank surfaces are skipped, content words
   * start a unit, particles and auxiliaries join the last unit (or are dropped
   * before the first), everything else is dropped.
   */
  method BuildFlow(ms: seq<Morpheme>) returns (tokens: seq<string>)
    ensures tokens == FlowOf(ms)
  {
    tokens := [];
    for i := 0 to |ms|
      invariant tokens == FlowOf(ms[..i])
    {
      TagSnoc(ms, i);
      ghost var ts := Tag(ms[..i + 1]);
      assert ts[..i] == Tag(ms[..i]);
      var surface, pos, subPos := ms[i].surface, ms[i].pos, ms[i].subPos;
      if surface == [] || Trim(surface) == [] {
        continue;
      }
      if pos in KeepPos && subPos !in ExcludeSubPos {
        tokens := tokens + [surface];
      } else if pos == "助詞" || pos == "助動詞" {
        if |tokens| > 0 {
          tokens := tokens[|tokens| - 1 := tokens[|tokens| - 1] + surface];
        }
      }
    }
    assert ms[..|ms|] == ms;
  }

  /** The surfaces of the unit-starting morphemes, in order. */
  function UnitSurfaces(ts: seq<Tagged>): seq<string> {
    if ts == [] then []
    else UnitSurfaces(ts[..|ts| - 1]) + (if ts[|ts| - 1].role.Head? then [ts[|ts| - 1].surface] else [])
  }

  lemma {:induction false} UnitsLength(ts: seq<Tagged>)
    ensures |Units(ts)| == |UnitSurfaces(ts)|
  {
    if ts != [] {
      UnitsLength(ts[..|ts| - 1]);
    }
  }

  /** Gluing a particle onto the last unit keeps every unit's beginning. */
  lemma GlueKeepsStarts(prev: seq<string>, us: seq<string>, tail: string)
    requires prev != [] && |prev| == |us|
    requires forall k :: 0 <= k < |prev| ==> StartsWith(prev[k], us[k])
    ensures var f := prev[..|prev| - 1] + [prev[|prev| - 1] + tail];
      forall k :: 0 <= k < |f| ==> StartsWith(f[k], us[k])
  {
    var last := prev[|prev| - 1];
    var f := prev[..|prev| - 1] + [last + tail];
    forall k | 0 <= k < |f| ensures StartsWith(f[k], us[k]) {
      if k == |prev| - 1 {
        assert StartsWith(last, us[k]);
        assert (last + tail)[..|us[k]|] == last[..|us[k]|];
      } else {
        assert f[k] == prev[k];
      }
    }
  }

  /** The k-th unit starts with the k-th head surface. */
  lemma {:induction false} UnitsStart(ts: seq<Tagged>)
    ensures |Units(ts)| == |UnitSurfaces(ts)|
    ensures forall k :: 0 <= k < |Units(ts)| ==> StartsWith(Units(ts)[k], UnitSurfaces(ts)[k])
  {
    UnitsLength(ts);
    if ts != [] {
      var n := |ts| - 1;
      var t := ts[n];
      UnitsStart(ts[..n]);
      var prev, us := Units(ts[..n]), UnitSurfaces(ts[..n]);
      if t.role.Head? {
        assert Units(ts) == prev + [t.surface];
        assert UnitSurfaces(ts) == us + [t.surface];
      } else if t.role.Tail? && prev != [] {
        assert UnitSurfaces(ts) == us;
        GlueKeepsStarts(prev, us, t.surface);
      }
    }
  }

  /** There is one unit per content morpheme, and the k-th unit starts with the k-th content surface. */
  lemma FlowUnits(ms: seq<Morpheme>)
    ensures |FlowOf(ms)| == |UnitSurfaces(Tag(ms))|
    ensures forall k :: 0 <= k < |FlowOf(ms)| ==> StartsWith(FlowOf(ms)[k], UnitSurfaces(Tag(ms))[k])
  {
    UnitsStart(Tag(ms));
  }

  /** s1 + s2 + ... */
  function Concat(ss: seq<string>): string {
    if ss == [] then [] else Concat(ss[..|ss| - 1]) + ss[|ss| - 1]
  }

  /** The surfaces kept in some unit: every head and tail from the first head on. */
  function KeptText(ts: seq<Tagged>): string {
    if ts == [] then []
    else
      var n := |ts| - 1;
      if UnitSurfaces(ts[..n]) == [] then (if ts[n].role.Head? then ts[n].surface else [])
      else KeptText(ts[..n]) + (if !ts[n].role.Skip? then ts[n].surface else [])
  }

  lemma ConcatSnoc(prev: seq<string>, x: string)
    ensures Concat(prev + [x]) == Concat(prev) + x
  {
    assert (prev + [x])[..|prev|] == prev;
  }

  lemma ConcatGlue(init: seq<string>, last: string, tail: string)
    ensures Concat(init + [last + tail]) == Concat(init + [last]) + tail
  {
    ConcatSnoc(init, last + tail);
    ConcatSnoc(init, last);
    var a := Concat(init);
    assert a + (last + tail) == (a + last) + tail;
  }

  /** The units put back together are the head and tail surfaces from the first head on. */
  lemma {:induction false} UnitsKeepText(ts: seq<Tagged>)
    ensures Concat(Units(ts)) == KeptText(ts)
  {
    if ts != [] {
      var n := |ts| - 1;
      UnitsKeepText(ts[..n]);
      UnitsLength(ts[..n]);
      var prev, t := Units(ts[..n]), ts[n];
      if t.role.Head? {
        ConcatSnoc(prev, t.surface);
      } else if t.role.Tail? && prev != [] {
        var k := |prev| - 1;
        assert prev[..k] + [prev[k]] == prev;
        ConcatGlue(prev[..k], prev[k], t.surface);
      }
    }
  }

  /**
   * Gluing loses nothing else: the units put back together are exactly the content
   * and particle surfaces from the first content word on.
   */
  lemma FlowKeepsText(ms: seq<Morpheme>)
    ensures Concat(FlowOf(ms)) == KeptText(Tag(ms))
  {
    UnitsKeepText(Tag(ms));
  }
}
