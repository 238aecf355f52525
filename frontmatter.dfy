/**
 * The hand-written front-matter reader of the build script (parseFrontmatter in
 * scripts/build-data.js). It accepts a small line-oriented subset of YAML: a
 * header between two `---` lines, one `key: value` per line, where a value is a
 * bracketed list, a double-quoted string, a number or a bare string.
 */
module Frontmatter {
  import opened Wrappers
  import opened Text

  /** A header value as the script stores it. List items are never lists themselves. */
  datatype Value = Num(n: int) | Str(s: string) | List(items: seq<Value>)

  datatype ParseError = FrontmatterNotFound

  /** The parsed header and the trimmed body. */
  datatype Document = Document(meta: map<string, Value>, body: string)

  // ---- The delimiter regular expression /^---\r?\n([\s\S]*?)\r?\n---\r?\n([\s\S]*)$/ ----

  /** The length of the opening `---\r?\n`, if the content starts with one. */
  function OpeningLength(content: string): Option<nat> {
    if StartsWith(content, "---\r\n") then Some(5)
    else if StartsWith(content, "---\n") then Some(4)
    else None
  }

  /** The length of a closing `\r?\n---\r?\n` that starts at position k of s, if one does. */
  function ClosingLength(s: string, k: nat): Option<nat>
    requires k <= |s|
  {
    var t := s[k..];
    if StartsWith(t, "\r\n---\r\n") then Some(7)
    else if StartsWith(t, "\r\n---\n") then Some(6)
    else if StartsWith(t, "\n---\r\n") then Some(6)
    else if StartsWith(t, "\n---\n") then Some(5)
    else None
  }

  /** The first position at or after k where a closing delimiter starts (the lazy [\s\S]*?). */
  function FirstClosing(s: string, k: nat): (r: Option<nat>)
    requires k <= |s|
    ensures r.Some? ==> k <= r.value <= |s| && ClosingLength(s, r.value).Some?
    ensures r.Some? ==> forall j :: k <= j < r.value ==> ClosingLength(s, j).None?
    ensures r.None? ==> forall j :: k <= j <= |s| ==> ClosingLength(s, j).None?
    decreases |s| - k
  {
    if ClosingLength(s, k).Some? then Some(k)
    else if k == |s| then None
    else FirstClosing(s, k + 1)
  }

  /** The header text and the raw body, or None when the content has no front matter. */
  function SplitHeader(content: string): Option<(string, string)> {
    match OpeningLength(content)
    case None => None
    case Some(a) =>
      var rest := content[a..];
      match FirstClosing(rest, 0)
      case None => None
      case Some(k) => Some((rest[..k], rest[k + ClosingLength(rest, k).value..]))
  }

  /** A header whose lines after the first do not begin with `-` and which does not end in a carriage return. */
  predicate PlainHeader(y: string) {
    && (forall i :: 0 <= i < |y| - 1 && y[i] == '\n' ==> y[i + 1] != '-')
    && (|y| > 0 ==> y[|y| - 1] != '\r')
  }

  lemma DiffersAt(t: string, p: string, i: nat)
    requires i < |p| && i < |t| && t[i] != p[i]
    ensures !StartsWith(t, p)
  {
  }

  /** No closing delimiter starts at a position j inside a plain header. */
  lemma NoClosingInside(y: string, rest: string, j: nat)
    requires PlainHeader(y) && j < |y|
    requires |rest| >= |y| + 5 && rest[..|y|] == y && rest[|y|] == '\n' && rest[|y| + 1] == '-'
    ensures ClosingLength(rest, j).None?
  {
    var t := rest[j..];
    assert t[0] == y[j] by { assert rest[..|y|][j] == y[j]; }
    assert t[1] == (if j + 1 < |y| then y[j + 1] else '\n') by {
      if j + 1 < |y| { assert rest[..|y|][j + 1] == y[j + 1]; }
    }
    if y[j] == '\n' {
      DiffersAt(t, "\r\n---\r\n", 0);
      DiffersAt(t, "\r\n---\n", 0);
      DiffersAt(t, "\n---\r\n", 1);
      DiffersAt(t, "\n---\n", 1);
    } else if y[j] == '\r' {
      DiffersAt(t, "\n---\r\n", 0);
      DiffersAt(t, "\n---\n", 0);
      if y[j + 1] == '\n' {
        assert t[2] == (if j + 2 < |y| then y[j + 2] else '\n') by {
          if j + 2 < |y| { assert rest[..|y|][j + 2] == y[j + 2]; }
        }
        DiffersAt(t, "\r\n---\r\n", 2);
        DiffersAt(t, "\r\n---\n", 2);
      } else {
        DiffersAt(t, "\r\n---\r\n", 1);
        DiffersAt(t, "\r\n---\n", 1);
      }
    } else {
      DiffersAt(t, "\r\n---\r\n", 0);
      DiffersAt(t, "\r\n---\n", 0);
      DiffersAt(t, "\n---\r\n", 0);
      DiffersAt(t, "\n---\n", 0);
    }
  }

  /** Writing a plain header and a body between the delimiters and splitting again gives both back. */
  lemma SplitHeaderRoundTrip(y: string, b: string)
    requires PlainHeader(y)
    ensures SplitHeader("---\n" + y + "\n---\n" + b) == Some((y, b))
  {
    var content := "---\n" + y + "\n---\n" + b;
    var rest := y + "\n---\n" + b;
    Opening(content, rest);
    HeaderEnd(y, b, rest);
    assert SplitHeader(content) == Some((rest[..|y|], rest[|y| + 5..]));
  }

  /** After the opening, the first closing delimiter is the one written after a plain header. */
  lemma HeaderEnd(y: string, b: string, rest: string)
    requires PlainHeader(y) && rest == y + "\n---\n" + b
    ensures FirstClosing(rest, 0) == Some(|y|) && ClosingLength(rest, |y|) == Some(5)
    ensures rest[..|y|] == y && rest[|y| + 5..] == b
  {
    assert rest[..|y|] == y && rest[|y|] == '\n' && rest[|y| + 1] == '-';
    forall j | 0 <= j < |y| ensures ClosingLength(rest, j).None? {
      NoClosingInside(y, rest, j);
    }
    ClosingAfter(y, b, rest);
  }

  /** Content that opens with `---` and a bare newline has an opening of length 4. */
  lemma Opening(content: string, rest: string)
    requires content == "---\n" + rest
    ensures OpeningLength(content) == Some(4) && content[4..] == rest
  {
    assert content[..4] == "---\n";
    DiffersAt(content, "---\r\n", 3);
  }

  /** The `\n---\n` written after the header is a closing delimiter of length 5, and the body follows it. */
  lemma ClosingAfter(y: string, b: string, rest: string)
    requires rest == y + "\n---\n" + b
    ensures ClosingLength(rest, |y|) == Some(5) && rest[|y| + 5..] == b
  {
    var t := rest[|y|..];
    assert t == "\n---\n" + b;
    assert t[..5] == "\n---\n";
    DiffersAt(t, "\r\n---\r\n", 0);
    DiffersAt(t, "\r\n---\n", 0);
    DiffersAt(t, "\n---\r\n", 4);
  }

  // ---- Values ----

  predicate AllDigits(s: string) {
    forall i :: 0 <= i < |s| ==> IsDigit(s[i])
  }

  /** The value of a string of decimal digits. */
  function DigitsValue(s: string): nat
    requires AllDigits(s)
  {
    if s == [] then 0 else 10 * DigitsValue(s[..|s| - 1]) + (s[|s| - 1] as int - '0' as int)
  }

  /**
   * Number(s) for a trimmed s, restricted to decimal integers: the empty string is 0,
   * an optional sign followed by digits is that integer, anything else is NaN (None).
   */
  function JsNumber(s: string): Option<int> {
    if s == [] then Some(0)
    else if (s[0] == '+' || s[0] == '-') && |s| > 1 && AllDigits(s[1..]) then
      var d: int := DigitsValue(s[1..]);
      Some(if s[0] == '-' then -d else d)
    else if AllDigits(s) then Some(DigitsValue(s))
    else None
  }

  /** .replace(/\\"/g, '"'): every backslash-quote pair becomes a quote, scanning left to right. */
  function Unquote(s: string): string {
    if |s| >= 2 && s[0] == '\\' && s[1] == '"' then "\"" + Unquote(s[2..])
    else if s == [] then []
    else [s[0]] + Unquote(s[1..])
  }

  /** How a writer escapes a string for a double-quoted header value: a backslash before every quote. */
  function Quote(s: string): string {
    if s == [] then [] else (if s[0] == '"' then "\\\"" else [s[0]]) + Quote(s[1..])
  }

  lemma {:induction false} QuoteStart(s: string)
    ensures Quote(s) == [] || Quote(s)[0] != '"'
  {
  }

  /** Unquoting undoes quoting, whatever backslashes the string holds. */
  lemma {:induction false} UnquoteQuote(s: string)
    ensures Unquote(Quote(s)) == s
  {
    if s != [] {
      UnquoteQuote(s[1..]);
      QuoteStart(s[1..]);
      if s[0] == '"' {
        assert Quote(s) == "\\\"" + Quote(s[1..]);
        assert Quote(s)[2..] == Quote(s[1..]);
      } else {
        assert Quote(s) == [s[0]] + Quote(s[1..]);
        assert Quote(s)[1..] == Quote(s[1..]);
      }
    }
  }

  /** One list item: Number(v.trim()), or the trimmed text when that is NaN. */
  function ListItem(v: string): Value {
    var t := Trim(v);
    match JsNumber(t)
    case Some(n) => Num(n)
    case None => Str(t)
  }

  /** The value of a `key: value` line, from the trimmed text after the colon. */
  function ParseValue(raw: string): (v: Value)
    ensures v.List? ==> forall i :: 0 <= i < |v.items| ==> !v.items[i].List?
  {
    if StartsWith(raw, "[") && EndsWith(raw, "]") then
      assert raw[0] == '[' && raw[|raw| - 1] == ']';
      var inner := Trim(raw[1..|raw| - 1]);
      if inner == [] then List([])
      else
        var pieces := Split(inner, {','});
        List(seq(|pieces|, i requires 0 <= i < |pieces| => ListItem(pieces[i])))
    else if StartsWith(raw, "\"") && EndsWith(raw, "\"") then
      Str(Unquote(if |raw| >= 2 then raw[1..|raw| - 1] else []))
    else if raw != [] && JsNumber(raw).Some? then Num(JsNumber(raw).value)
    else Str(raw)
  }

  /** A quoted value written with Quote is read back as the original string. */
  lemma QuotedValueRoundTrip(s: string)
    ensures ParseValue("\"" + Quote(s) + "\"") == Str(s)
  {
    var raw := "\"" + Quote(s) + "\"";
    assert raw[0] == '"';
    assert raw[1..|raw| - 1] == Quote(s);
    UnquoteQuote(s);
  }

  /** The decimal representation of n, as a writer puts an id into the header. */
  function Decimal(n: nat): (r: string)
    ensures AllDigits(r) && r != []
  {
    if n < 10 then [('0' as int + n) as char]
    else Decimal(n / 10) + [('0' as int + n % 10) as char]
  }

  lemma {:induction false} DecimalValue(n: nat)
    ensures DigitsValue(Decimal(n)) == n
  {
    if n >= 10 {
      DecimalValue(n / 10);
      var d := Decimal(n);
      assert d[..|d| - 1] == Decimal(n / 10);
    }
  }

  /** The decimal text of an integer, with a minus sign when negative, as String(n) gives it. */
  function IntText(n: int): (r: string)
    ensures r != [] && (r[0] == '-' || IsDigit(r[0])) && IsDigit(r[|r| - 1])
  {
    if n < 0 then "-" + Decimal(-n) else Decimal(n)
  }

  /** Number() reads the decimal text of an integer back as that integer. */
  lemma IntTextNumber(n: int)
    ensures JsNumber(IntText(n)) == Some(n)
  {
    if n < 0 {
      DecimalValue(-n);
      NegativeNumber(Decimal(-n));
    } else {
      DecimalValue(n);
      DigitsNumber(Decimal(n));
    }
  }

  /** An integer written in decimal, with a minus sign when negative, is read back as that number. */
  lemma IntegerValueRoundTrip(n: int)
    ensures ParseValue(IntText(n)) == Num(n)
  {
    IntTextNumber(n);
    PlainValue(IntText(n));
  }

  /** An item that is empty or white space is Number('') = 0. */
  lemma BlankItemIsZero(v: string)
    requires AllSpace(v)
    ensures ListItem(v) == Num(0)
  {
  }

  /** Brackets around nothing but white space are the empty list. */
  lemma EmptyListValue(ws: string)
    requires AllSpace(ws)
    ensures ParseValue("[" + ws + "]") == List([])
  {
    var raw := "[" + ws + "]";
    assert raw[1..|raw| - 1] == ws;
    assert StartsWith(raw, "[") && EndsWith(raw, "]");
  }

  /** The texts between the commas of `join(', ')`: each integer, after a space but the first. */
  function ItemTexts(ns: seq<int>): (r: seq<string>)
    ensures |r| == |ns|
  {
    seq(|ns|, i requires 0 <= i < |ns| => if i == 0 then IntText(ns[0]) else " " + IntText(ns[i]))
  }

  function Commas(n: nat): (r: seq<char>)
    ensures |r| == n && forall k :: 0 <= k < n ==> r[k] == ','
  {
    seq(n, k => ',')
  }

  /** The list as a header writes it, `[1, 2, 3]`, or `[]` for no items. */
  function ListText(ns: seq<int>): string {
    "[" + (if ns == [] then "" else JoinWith(ItemTexts(ns), Commas(|ns| - 1))) + "]"
  }

  lemma NotSpace(c: char)
    requires c == '-' || IsDigit(c)
    ensures !IsSpace(c)
  {
  }

  /** Number() of each item text is its integer. */
  lemma ItemReads(ns: seq<int>, i: nat)
    requires i < |ns|
    ensures ListItem(ItemTexts(ns)[i]) == Num(ns[i])
  {
    var t := IntText(ns[i]);
    IntTextNumber(ns[i]);
    NotSpace(t[0]);
    NotSpace(t[|t| - 1]);
    if i == 0 {
      TrimUnchanged(t);
    } else {
      TrimLeadingSpace(t);
    }
  }

  /** split(',') of a joined non-empty list gives back the item texts. */
  lemma SplitItems(ns: seq<int>)
    requires ns != []
    ensures Split(JoinWith(ItemTexts(ns), Commas(|ns| - 1)), {','}) == ItemTexts(ns)
  {
    var pieces := ItemTexts(ns);
    forall k, i | 0 <= k < |pieces| && 0 <= i < |pieces[k]| ensures pieces[k][i] !in {','} {
      IntTextNoComma(ns[k]);
      if k > 0 {
        assert pieces[k] == [' '] + IntText(ns[k]);
      }
    }
    SplitJoinWith(pieces, Commas(|ns| - 1), {','});
  }

  lemma IntTextNoComma(n: int)
    ensures forall i :: 0 <= i < |IntText(n)| ==> IntText(n)[i] != ','
  {
    if n < 0 {
      assert forall i :: 1 <= i < |IntText(n)| ==> IntText(n)[i] == Decimal(-n)[i - 1];
    }
  }

  /** Brackets around a text with no white-space ends: one item per comma-separated piece. */
  lemma BracketedValue(j: string)
    requires j != [] && !IsSpace(j[0]) && !IsSpace(j[|j| - 1])
    ensures var pieces := Split(j, {','});
      ParseValue("[" + j + "]") == List(seq(|pieces|, i requires 0 <= i < |pieces| => ListItem(pieces[i])))
  {
    var raw := "[" + j + "]";
    assert raw[1..|raw| - 1] == j;
    assert StartsWith(raw, "[") && EndsWith(raw, "]");
    TrimUnchanged(j);
  }

  /** The joined text of a non-empty list opens with a sign or digit. */
  lemma JoinedFirst(ns: seq<int>)
    requires ns != []
    ensures var j := JoinWith(ItemTexts(ns), Commas(|ns| - 1)); j != [] && !IsSpace(j[0])
  {
    var pieces := ItemTexts(ns);
    var t := IntText(ns[0]);
    assert pieces[0] == t;
    NotSpace(t[0]);
  }

  /** The last item text closes with the last integer's final digit. */
  lemma LastItemEnd(ns: seq<int>)
    requires ns != []
    ensures var l := ItemTexts(ns)[|ns| - 1]; l != [] && IsDigit(l[|l| - 1])
  {
    var t := IntText(ns[|ns| - 1]);
    var l := ItemTexts(ns)[|ns| - 1];
    if |ns| == 1 {
      assert l == t;
    } else {
      assert l == " " + t;
      assert l[|l| - 1] == t[|t| - 1];
    }
  }

  /** The joined text of a non-empty list closes with a digit. */
  lemma JoinedLast(ns: seq<int>)
    requires ns != []
    ensures var j := JoinWith(ItemTexts(ns), Commas(|ns| - 1)); j != [] && !IsSpace(j[|j| - 1])
  {
    var pieces := ItemTexts(ns);
    LastItemEnd(ns);
    JoinWithLast(pieces, Commas(|ns| - 1));
    var j := JoinWith(pieces, Commas(|ns| - 1));
    assert IsDigit(j[|j| - 1]) by {
      assert |pieces| == |ns|;
    }
    NotSpace(j[|j| - 1]);
  }

  /** Reading the item texts gives the numbers. */
  lemma ItemsRead(ns: seq<int>)
    ensures var pieces := ItemTexts(ns);
      seq(|pieces|, i requires 0 <= i < |pieces| => ListItem(pieces[i])) == seq(|ns|, i requires 0 <= i < |ns| => Num(ns[i]))
  {
    forall i | 0 <= i < |ns| ensures ListItem(ItemTexts(ns)[i]) == Num(ns[i]) {
      ItemReads(ns, i);
    }
  }

  lemma JoinedListRoundTrip(ns: seq<int>)
    requires ns != []
    ensures ParseValue("[" + JoinWith(ItemTexts(ns), Commas(|ns| - 1)) + "]") == List(seq(|ns|, i requires 0 <= i < |ns| => Num(ns[i])))
  {
    var j, pieces := JoinWith(ItemTexts(ns), Commas(|ns| - 1)), ItemTexts(ns);
    assert Split(j, {','}) == pieces by {
      SplitItems(ns);
    }
    JoinedFirst(ns);
    JoinedLast(ns);
    BracketedValue(j);
    ItemsRead(ns);
  }

  /**
   * A list of integers written as `[1, 2, 3]` is read back item by item as
   * those numbers, and `[]` as the empty list.
   */
  lemma ListValueRoundTrip(ns: seq<int>)
    ensures ParseValue(ListText(ns)) == List(seq(|ns|, i requires 0 <= i < |ns| => Num(ns[i])))
  {
    if ns == [] {
      EmptyListValue("");
      assert ListText(ns) == "[" + "" + "]";
    } else {
      JoinedListRoundTrip(ns);
    }
  }

  /** Number() of a digit string is its value. */
  lemma DigitsNumber(d: string)
    requires d != [] && AllDigits(d)
    ensures JsNumber(d) == Some(DigitsValue(d) as int)
    ensures d[0] != '[' && d[0] != '"'
  {
    assert IsDigit(d[0]);
  }

  /** Number() of a minus sign and a digit string is the negated value. */
  lemma NegativeNumber(d: string)
    requires d != [] && AllDigits(d)
    ensures JsNumber("-" + d) == Some(-(DigitsValue(d) as int))
  {
    var s := "-" + d;
    assert s[0] == '-' && s[1..] == d;
  }

  /** A value that opens with neither a bracket nor a quote is a number when Number() accepts it, else the string itself. */
  lemma PlainValue(raw: string)
    requires raw != [] && raw[0] != '[' && raw[0] != '"'
    ensures ParseValue(raw) == if JsNumber(raw).Some? then Num(JsNumber(raw).value) else Str(raw)
  {
    assert !StartsWith(raw, "[") && !StartsWith(raw, "\"");
  }

  // ---- Lines ----

  /** The key and value a header line defines: blank lines, `#` comments and lines without a colon define none. */
  function LineEntry(line: string): Option<(string, Value)> {
    var t := Trim(line);
    if t == [] || StartsWith(t, "#") then None
    else
      var c := IndexOf(t, ":");
      if c == -1 then None
      else Some((Trim(t[..c]), ParseValue(Trim(t[c + 1..]))))
  }

  /** What each header line defines, in order. */
  function LineEntries(lines: seq<string>): (es: seq<Option<(string, Value)>>)
    ensures |es| == |lines|
    ensures forall i :: 0 <= i < |lines| ==> es[i] == LineEntry(lines[i])
  {
    seq(|lines|, i requires 0 <= i < |lines| => LineEntry(lines[i]))
  }

  /** meta after assigning the entries in order: meta[key] = value, overwriting. */
  function Assign(es: seq<Option<(string, Value)>>): map<string, Value> {
    if es == [] then map[]
    else
      var m := Assign(es[..|es| - 1]);
      match es[|es| - 1]
      case None => m
      case Some((k, v)) => m[k := v]
  }

  /** One step of the assignment loop. */
  lemma AssignStep(es: seq<Option<(string, Value)>>, i: nat)
    requires i < |es|
    ensures Assign(es[..i + 1]) == if es[i].Some? then Assign(es[..i])[es[i].value.0 := es[i].value.1] else Assign(es[..i])
  {
    assert es[..i + 1][..i] == es[..i];
  }

  function MetaOf(lines: seq<string>): map<string, Value> {
    Assign(LineEntries(lines))
  }

  predicate Defines(e: Option<(string, Value)>, k: string) {
    e.Some? && e.value.0 == k
  }

  /** The meta map holds exactly the keys that some line defines. */
  lemma {:induction false} MetaKeys(es: seq<Option<(string, Value)>>, k: string)
    ensures k in Assign(es) <==> exists i :: 0 <= i < |es| && Defines(es[i], k)
  {
    if es != [] {
      var n := |es| - 1;
      MetaKeys(es[..n], k);
      if exists i :: 0 <= i < n && Defines(es[..n][i], k) {
        var i :| 0 <= i < n && Defines(es[..n][i], k);
        assert es[i] == es[..n][i];
      }
      if exists i :: 0 <= i < |es| && Defines(es[i], k) {
        var i :| 0 <= i < |es| && Defines(es[i], k);
        if i < n {
          assert es[..n][i] == es[i];
        }
      }
    }
  }

  /** Later lines overwrite earlier ones: a key holds the value of the last line that defines it. */
  lemma {:induction false} MetaLastWins(es: seq<Option<(string, Value)>>, i: nat, k: string)
    requires i < |es| && Defines(es[i], k)
    requires forall j :: i < j < |es| ==> !Defines(es[j], k)
    ensures k in Assign(es) && Assign(es)[k] == es[i].value.1
  {
    var n := |es| - 1;
    if i < n {
      forall j | i < j < n ensures !Defines(es[..n][j], k) {
        assert es[..n][j] == es[j];
      }
      assert es[..n][i] == es[i];
      MetaLastWins(es[..n], i, k);
    }
  }

  /**
   * parseFrontmatter: fails unless the content opens with a `---` line and has a later
   * closing `---` line; otherwise the header's lines fill meta in order and the body is trimmed.
   * Splitting on '\n' and trimming each line is the same as the script's split(/\r?\n/)
   * followed by trim(), since the carriage return it drops is white space.
   */
  method ParseFrontmatter(content: string) returns (r: Result<Document, ParseError>)
    ensures r.Failure? <==> SplitHeader(content).None?
    ensures r.Success? ==>
      && r.value.body == Trim(SplitHeader(content).value.1)
      && r.value.meta == MetaOf(Split(SplitHeader(content).value.0, {'\n'}))
  {
    var header := SplitHeader(content);
    if header.None? {
      return Failure(FrontmatterNotFound);
    }
    var (yaml, rawBody) := header.value;
    var body := Trim(rawBody);
    var lines := Split(yaml, {'\n'});
    ghost var es := LineEntries(lines);
    var meta: map<string, Value> := map[];
    var i := 0;
    while i < |lines|
      invariant 0 <= i <= |lines|
      invariant meta == Assign(es[..i])
    {
      AssignStep(es, i);
      var trimmed := Trim(lines[i]);
      if trimmed == [] || StartsWith(trimmed, "#") {
        assert LineEntry(lines[i]).None?;
        i := i + 1;
        continue;
      }
      var colon := IndexOf(trimmed, ":");
      if colon == -1 {
        assert LineEntry(lines[i]).None?;
        i := i + 1;
        continue;
      }
      var key := Trim(trimmed[..colon]);
      var value := ParseValue(Trim(trimmed[colon + 1..]));
      assert LineEntry(lines[i]) == Some((key, value));
      meta := meta[key := value];
      i := i + 1;
    }
    assert es[..i] == es;
    return Success(Document(meta, body));
  }
}
