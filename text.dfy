/**
 * The string operations of JavaScript that the core relies on: trim, includes,
 * indexOf, startsWith/endsWith, split on single separator characters, substring
 * and the replacement of newlines by spaces. Strings are sequences of characters;
 * a length is a count of characters.
 */
module Text {

  /** The characters JavaScript's trim() and the regular-expression class \s treat as white space. */
  predicate IsSpace(c: char) {
    || c == ' ' || c == '\t' || c == '\n' || c == '\r' || c == '\U{B}' || c == '\U{C}'
    || c == '\U{A0}' || c == '\U{1680}' || ('\U{2000}' <= c <= '\U{200A}')
    || c == '\U{2028}' || c == '\U{2029}' || c == '\U{202F}' || c == '\U{205F}'
    || c == '\U{3000}' || c == '\U{FEFF}'
  }

  /** An ASCII decimal digit, the class \d of a regular expression. */
  predicate IsDigit(c: char) {
    '0' <= c <= '9'
  }

  predicate AllSpace(s: string) {
    forall i :: 0 <= i < |s| ==> IsSpace(s[i])
  }

  /** The number of white-space characters that open s. */
  function LeadingSpace(s: string): (n: nat)
    ensures n <= |s|
    ensures AllSpace(s[..n])
    ensures n < |s| ==> !IsSpace(s[n])
  {
    if s == [] || !IsSpace(s[0]) then 0 else 1 + LeadingSpace(s[1..])
  }

  /** The number of white-space characters that close s. */
  function TrailingSpace(s: string): (n: nat)
    ensures n <= |s|
    ensures AllSpace(s[|s| - n..])
    ensures n < |s| ==> !IsSpace(s[|s| - 1 - n])
  {
    if s == [] || !IsSpace(s[|s| - 1]) then 0 else 1 + TrailingSpace(s[..|s| - 1])
  }

  /** String.prototype.trim: s without its leading and trailing white space. */
  function Trim(s: string): (r: string)
    ensures |r| <= |s|
    ensures r == [] || (!IsSpace(r[0]) && !IsSpace(r[|r| - 1]))
    ensures r == [] <==> AllSpace(s)
    ensures Contains(s, r)
  {
    var a := LeadingSpace(s);
    var t := s[a..];
    var b := TrailingSpace(t);
    var r := t[..|t| - b];
    assert r == s[a..a + |r|];
    assert OccursAt(s, r, a);
    TrimEmpty(s, a, b);
    r
  }

  /** What is left between the leading and the trailing white space is empty iff s is all white space. */
  lemma TrimEmpty(s: string, a: nat, b: nat)
    requires a <= |s| && AllSpace(s[..a]) && (a < |s| ==> !IsSpace(s[a]))
    requires b <= |s| - a && AllSpace(s[a..][|s| - a - b..])
    ensures |s| - a - b == 0 <==> AllSpace(s)
  {
    if a == |s| {
      assert s[..a] == s;
    } else {
      assert !IsSpace(s[a]);
      assert s[a..][0] == s[a];
    }
  }

  /** String.prototype.startsWith. */
  predicate StartsWith(s: string, p: string) {
    |p| <= |s| && s[..|p|] == p
  }

  /** String.prototype.endsWith. */
  predicate EndsWith(s: string, p: string) {
    |p| <= |s| && s[|s| - |p|..] == p
  }

  /** sub occurs in s at position i. */
  predicate OccursAt(s: string, sub: string, i: int) {
    0 <= i && i + |sub| <= |s| && s[i..i + |sub|] == sub
  }

  /** String.prototype.includes. */
  predicate Contains(s: string, sub: string) {
    exists i :: 0 <= i <= |s| - |sub| && OccursAt(s, sub, i)
  }

  function IndexFrom(s: string, sub: string, i: nat): (r: int)
    requires i <= |s|
    ensures r == -1 || (i <= r && OccursAt(s, sub, r))
    ensures forall j :: i <= j < (if r == -1 then |s| + 1 else r) ==> !OccursAt(s, sub, j)
    decreases |s| - i
  {
    if OccursAt(s, sub, i) then i
    else if i == |s| then -1
    else IndexFrom(s, sub, i + 1)
  }

  /** String.prototype.indexOf: the first position of sub in s, or -1 when it does not occur. */
  function IndexOf(s: string, sub: string): (r: int)
    ensures r == -1 <==> !Contains(s, sub)
    ensures r != -1 ==> OccursAt(s, sub, r) && forall j :: 0 <= j < r ==> !OccursAt(s, sub, j)
  {
    var r := IndexFrom(s, sub, 0);
    assert r == -1 ==> forall j :: !OccursAt(s, sub, j) by {
      if r == -1 {
        forall j ensures !OccursAt(s, sub, j) {
          if 0 <= j <= |s| {} else {}
        }
      }
    }
    r
  }

  /**
   * String.prototype.split with a separator that matches one character of seps:
   * the pieces between separators, in order; there is always at least one piece.
   */
  function Split(s: string, seps: set<char>): (r: seq<string>)
    ensures |r| >= 1
    ensures forall k :: 0 <= k < |r| ==> forall i :: 0 <= i < |r[k]| ==> r[k][i] !in seps
  {
    if s == [] then [[]]
    else
      var rest := Split(s[1..], seps);
      if s[0] in seps then [[]] + rest else [[s[0]] + rest[0]] + rest[1..]
  }

  /** The pieces of Split put back together with one separator each between them. */
  function JoinWith(pieces: seq<string>, seps: seq<char>): string
    requires |seps| + 1 == |pieces|
  {
    if |seps| == 0 then pieces[0] else pieces[0] + [seps[0]] + JoinWith(pieces[1..], seps[1..])
  }

  /** The separator characters of s, in order. */
  function SeparatorsOf(s: string, seps: set<char>): seq<char> {
    if s == [] then [] else (if s[0] in seps then [s[0]] else []) + SeparatorsOf(s[1..], seps)
  }

  /** Splitting loses nothing: the pieces and the separators between them give back s. */
  lemma {:induction false} SplitJoin(s: string, seps: set<char>)
    ensures |Split(s, seps)| == |SeparatorsOf(s, seps)| + 1
    ensures JoinWith(Split(s, seps), SeparatorsOf(s, seps)) == s
  {
    if s != [] {
      SplitJoin(s[1..], seps);
      var rest, sp := Split(s[1..], seps), SeparatorsOf(s[1..], seps);
      if s[0] in seps {
        var pieces, between := [[]] + rest, [s[0]] + sp;
        assert Split(s, seps) == pieces && SeparatorsOf(s, seps) == between;
        assert pieces[1..] == rest && between[1..] == sp;
        assert JoinWith(pieces, between) == [] + [s[0]] + JoinWith(rest, sp);
        assert s == [s[0]] + s[1..];
      } else {
        var pieces := [[s[0]] + rest[0]] + rest[1..];
        assert Split(s, seps) == pieces && SeparatorsOf(s, seps) == sp;
        JoinCons(s[0], rest, sp);
        assert JoinWith(pieces, sp) == [s[0]] + s[1..];
        assert s == [s[0]] + s[1..];
      }
    }
  }

  /** Putting a character in front of the first piece puts it in front of the joined string. */
  lemma JoinCons(c: char, pieces: seq<string>, seps: seq<char>)
    requires |seps| + 1 == |pieces|
    ensures JoinWith([[c] + pieces[0]] + pieces[1..], seps) == [c] + JoinWith(pieces, seps)
  {
    var p := [[c] + pieces[0]] + pieces[1..];
    assert p[1..] == pieces[1..];
  }

  /** A string without a separator splits into itself. */
  lemma {:induction false} SplitNoSeparator(s: string, seps: set<char>)
    requires forall i :: 0 <= i < |s| ==> s[i] !in seps
    ensures Split(s, seps) == [s]
  {
    if s != [] {
      SplitNoSeparator(s[1..], seps);
      assert [s[0]] + s[1..] == s;
    }
  }

  /** A separator after a separator-free prefix p ends the first piece: the rest splits on its own. */
  lemma {:induction false} SplitAtSeparator(p: string, c: char, rest: string, seps: set<char>)
    requires c in seps && forall i :: 0 <= i < |p| ==> p[i] !in seps
    ensures Split(p + [c] + rest, seps) == [p] + Split(rest, seps)
  {
    if p == [] {
      assert p + [c] + rest == [c] + rest;
      assert ([c] + rest)[1..] == rest;
    } else {
      var s := p + [c] + rest;
      SplitAtSeparator(p[1..], c, rest, seps);
      assert s[0] == p[0] && s[1..] == p[1..] + [c] + rest;
      assert [p[0]] + p[1..] == p;
    }
  }

  /** Pieces free of the separators, joined with separators, split back into those pieces. */
  lemma {:induction false} SplitJoinWith(pieces: seq<string>, between: seq<char>, seps: set<char>)
    requires |between| + 1 == |pieces|
    requires forall k :: 0 <= k < |between| ==> between[k] in seps
    requires forall k, i :: 0 <= k < |pieces| && 0 <= i < |pieces[k]| ==> pieces[k][i] !in seps
    ensures Split(JoinWith(pieces, between), seps) == pieces
  {
    if |between| == 0 {
      SplitNoSeparator(pieces[0], seps);
    } else {
      SplitJoinWith(pieces[1..], between[1..], seps);
      SplitAtSeparator(pieces[0], between[0], JoinWith(pieces[1..], between[1..]), seps);
      assert [pieces[0]] + pieces[1..] == pieces;
    }
  }

  /** The joined string ends with the last piece. */
  lemma {:induction false} JoinWithLast(pieces: seq<string>, between: seq<char>)
    requires |between| + 1 == |pieces| && pieces[|pieces| - 1] != []
    ensures var j := JoinWith(pieces, between); var l := pieces[|pieces| - 1];
      j != [] && j[|j| - 1] == l[|l| - 1]
  {
    if |between| > 0 {
      JoinWithLast(pieces[1..], between[1..]);
    }
  }

  /** A character that is no separator joins the first piece. */
  lemma SplitNonSeparator(c: char, s: string, seps: set<char>)
    requires c !in seps
    ensures Split([c] + s, seps) == [[c] + Split(s, seps)[0]] + Split(s, seps)[1..]
  {
    assert ([c] + s)[1..] == s;
  }

  /** A string that neither opens nor closes with white space is its own trim. */
  lemma TrimUnchanged(s: string)
    requires s != [] && !IsSpace(s[0]) && !IsSpace(s[|s| - 1])
    ensures Trim(s) == s
  {
    assert s[0..] == s;
  }

  /** A string with one leading space trims to the rest when the rest has no white-space ends. */
  lemma TrimLeadingSpace(s: string)
    requires s != [] && !IsSpace(s[0]) && !IsSpace(s[|s| - 1])
    ensures Trim(" " + s) == s
  {
    var t := " " + s;
    assert t[1..] == s;
    assert LeadingSpace(t) == 1 + LeadingSpace(s) == 1;
    assert s[0..] == s;
  }

  /** .replace(/\n/g, ' '): every newline becomes a space. */
  function NewlinesToSpaces(s: string): (r: string)
    ensures |r| == |s|
    ensures forall i :: 0 <= i < |s| ==> r[i] == (if s[i] == '\n' then ' ' else s[i])
    ensures '\n' !in r
  {
    seq(|s|, i requires 0 <= i < |s| => if s[i] == '\n' then ' ' else s[i])
  }

  function Clamp(x: int, len: nat): (r: nat)
    ensures r <= len
  {
    if x < 0 then 0 else if x > len then len else x
  }

  /**
   * String.prototype.substring: both ends are clamped to [0, |s|] and the
   * smaller one is taken as the start.
   */
  function Substring(s: string, start: int, end: int): (r: string)
    ensures |r| <= |s|
    ensures 0 <= start <= end <= |s| ==> r == s[start..end]
  {
    var a, b := Clamp(start, |s|), Clamp(end, |s|);
    if a <= b then s[a..b] else s[b..a]
  }
}
