/** Printing a block string (graphql/ast/printer.go) and lexing it again. */
module BlockStringRoundTrip {
  import opened Wrappers
  import opened BlockStrings
  import opened Lexing

  // ---------------------------------------------------------------------------------------------
  // Printing
  // ---------------------------------------------------------------------------------------------

  function Spaces(n: nat): (s: string)
    ensures |s| == n && forall i | 0 <= i < n :: s[i] == ' '
  {
    seq(n, i => ' ')
  }

  const QUOTES := "\"\"\""

  /** Replaces """ by \""", from the left. */
  function EscapeQuotes(s: string): string {
    if s == "" then ""
    else if QUOTES <= s then "\\\"\"\"" + EscapeQuotes(s[3..])
    else [s[0]] + EscapeQuotes(s[1..])
  }

  /** Puts the indentation behind every newline. */
  function IndentLines(s: string, indent: string): string {
    if s == "" then ""
    else if s[0] == '\n' then "\n" + indent + IndentLines(s[1..], indent)
    else [s[0]] + IndentLines(s[1..], indent)
  }

  predicate SingleLine(s: string) { '\n' !in s }

  predicate EndsWith(s: string, c: char) { s != "" && s[|s| - 1] == c }

  predicate LeadingSpace(s: string) { s != "" && IsBlankChar(s[0]) }

  predicate MultipleLines(s: string) { !SingleLine(s) || EndsWith(s, '"') }

  function Head(v: string, level: nat): string {
    if MultipleLines(v) && !(SingleLine(v) && LeadingSpace(v)) then "\n" + Spaces(2 * level) + "  " else ""
  }

  function Foot(v: string, level: nat): string {
    if MultipleLines(v) then "\n" + Spaces(2 * level) else ""
  }

  /** printBlockString at an indent level, with the two more spaces that printValue asks for. */
  function PrintBlock(v: string, level: nat): string {
    QUOTES + Head(v, level) + IndentLines(EscapeQuotes(v), Spaces(2 * level) + "  ") + Foot(v, level) + QUOTES
  }

  // ---------------------------------------------------------------------------------------------
  // Lexing the escaped text
  // ---------------------------------------------------------------------------------------------

  /** Bytes that a block string may hold, after its line ends are made newlines. */
  predicate SourceText(s: string) {
    forall i | 0 <= i < |s| :: s[i] as int >= 0x20 || s[i] == '\t' || s[i] == '\n'
  }

  /** `u` stands at `i`, escaped and indented. */
  predicate EscapedAt(t: string, i: nat, u: string, indent: string) {
    var e := IndentLines(EscapeQuotes(u), indent);
    i + |e| <= |t| && t[i..i + |e|] == e
  }

  predicate Plain(s: string) {
    forall i | 0 <= i < |s| :: s[i] != '"' && s[i] != '\\' && (s[i] as int >= 0x20 || s[i] == '\t' || s[i] == '\n')
  }

  lemma {:induction false} LexPlain(t: string, i: nat, p: string, raw: string)
    requires i + |p| <= |t| && t[i..i + |p|] == p && Plain(p)
    ensures BlockFrom(t, i, raw) == BlockFrom(t, i + |p|, raw + p)
    decreases |p|
  {
    if p == "" {
      assert raw + "" == raw;
    } else {
      assert t[i] == p[0];
      assert t[i + 1..i + |p|] == t[i..i + |p|][1..] == p[1..];
      LexPlain(t, i + 1, p[1..], raw + [p[0]]);
      assert raw + [p[0]] + p[1..] == raw + p;
    }
  }

  /** Two stretches of text, one behind the other. */
  lemma Chain(t: string, i: nat, raw: string, n: nat, p: string, m: nat, q: string, total: nat, all: string)
    requires BlockFrom(t, i, raw) == BlockFrom(t, i + n, raw + p)
    requires BlockFrom(t, i + n, raw + p) == BlockFrom(t, i + n + m, raw + p + q)
    requires total == n + m && all == p + q
    ensures BlockFrom(t, i, raw) == BlockFrom(t, i + total, raw + all)
  {
    assert raw + p + q == raw + (p + q);
  }

  /** The first `n` characters of `u`, none of them a newline, are not changed by indenting. */
  lemma {:induction false} IndentRun(u: string, n: nat, indent: string)
    requires n <= |u| && '\n' !in u[..n]
    ensures IndentLines(u, indent) == u[..n] + IndentLines(u[n..], indent)
  {
    if n == 0 {
      assert u[0..] == u;
    } else {
      assert u[0] == u[..n][0] && u[1..][..n - 1] == u[..n][1..] && u[1..][n - 1..] == u[n..];
      IndentRun(u[1..], n - 1, indent);
      assert [u[0]] + u[1..][..n - 1] == u[..n];
    }
  }

  /** The text of a first character that is no quote and no newline. */
  lemma EscapeFirst(u: string, indent: string)
    requires u != ""
    ensures !(QUOTES <= u) && u[0] != '\n' ==>
              IndentLines(EscapeQuotes(u), indent) == [u[0]] + IndentLines(EscapeQuotes(u[1..]), indent)
    ensures u[0] == '\n' ==>
              IndentLines(EscapeQuotes(u), indent) == "\n" + indent + IndentLines(EscapeQuotes(u[1..]), indent)
    ensures QUOTES <= u ==>
              IndentLines(EscapeQuotes(u), indent) == "\\\"\"\"" + IndentLines(EscapeQuotes(u[3..]), indent)
  {
    var e := EscapeQuotes(u);
    if QUOTES <= u {
      var f := EscapeQuotes(u[3..]);
      assert e == ['\\', '"', '"', '"'] + f && e[..4] == ['\\', '"', '"', '"'] && e[4..] == f;
      IndentRun(e, 4, indent);
    } else {
      assert e[0] == u[0] && e[1..] == EscapeQuotes(u[1..]);
    }
  }

  /** The text at `j`, where `u` is to follow, does not begin with a quote if `u` does not, and neither does
      what comes behind the text of `u`. */
  lemma NextByte(t: string, j: nat, u: string, indent: string)
    requires EscapedAt(t, j, u, indent)
    requires u == "" ==> ByteAt(t, j) != '"'
    requires u != "" ==> u[0] != '"' || QUOTES <= u
    ensures ByteAt(t, j) != '"'
  {
    if u != "" {
      EscapeFirst(u, indent);
      var e := IndentLines(EscapeQuotes(u), indent);
      assert t[j] == t[j..j + |e|][0];
    }
  }

  /** The text of `u`, escaped and indented. */
  function Text(u: string, indent: string): string {
    IndentLines(EscapeQuotes(u), indent)
  }

  /** What is behind the text of `u` does not add to the quotes at its end. */
  predicate Follows(t: string, i: nat, u: string, indent: string) {
    EndsWith(u, '"') || EndsWith(u, '\\') ==> ByteAt(t, i + |Text(u, indent)|) != '"'
  }

  predicate Stands(t: string, i: nat, u: string, indent: string) {
    EscapedAt(t, i, u, indent) && SourceText(u) && Follows(t, i, u, indent)
  }

  /** `u` starts with a piece that is written as `w` and stands for `p`; `rest` is behind it. */
  ghost predicate Piece(t: string, i: nat, u: string, indent: string, raw: string, w: string, p: string, rest: string) {
    && |rest| < |u| && Stands(t, i + |w|, rest, indent)
    && |Text(u, indent)| == |w| + |Text(rest, indent)| && IndentLines(u, indent) == p + IndentLines(rest, indent)
    && BlockFrom(t, i, raw) == BlockFrom(t, i + |w|, raw + p)
  }

  lemma {:induction false} LexEscaped(t: string, i: nat, u: string, indent: string, raw: string)
    requires Stands(t, i, u, indent) && Plain(indent)
    ensures BlockFrom(t, i, raw) == BlockFrom(t, i + |Text(u, indent)|, raw + IndentLines(u, indent))
    decreases |u|
  {
    if u == "" {
      assert raw + "" == raw;
    } else {
      var w, p, rest := FirstPiece(t, i, u, indent, raw);
      LexEscaped(t, i + |w|, rest, indent, raw + p);
      Chain(t, i, raw, |w|, p, |Text(rest, indent)|, IndentLines(rest, indent), |Text(u, indent)|, IndentLines(u, indent));
    }
  }

  lemma FirstPiece(t: string, i: nat, u: string, indent: string, raw: string) returns (w: string, p: string, rest: string)
    requires u != "" && Stands(t, i, u, indent) && Plain(indent)
    ensures Piece(t, i, u, indent, raw, w, p, rest)
  {
    if QUOTES <= u {
      TriplePiece(t, i, u, indent, raw);
      w, p, rest := "\\\"\"\"", QUOTES, u[3..];
    } else if u[0] == '\n' {
      NewlinePiece(t, i, u, indent, raw);
      w, p, rest := "\n" + indent, "\n" + indent, u[1..];
    } else if u[0] == '"' {
      var n := QuotePiece(t, i, u, indent, raw);
      w, p, rest := u[..n], u[..n], u[n..];
    } else if u[0] == '\\' {
      var n := BackslashPiece(t, i, u, indent, raw);
      w, p, rest := u[..n], u[..n], u[n..];
    } else {
      OtherPiece(t, i, u, indent, raw);
      w, p, rest := [u[0]], [u[0]], u[1..];
    }
  }

  /** The piece `w`, which stands for the first `n` characters of `u`, and what is behind it. */
  lemma PieceParts(t: string, i: nat, u: string, indent: string, w: string, n: nat)
    requires Stands(t, i, u, indent) && 0 < n <= |u| && Text(u, indent) == w + Text(u[n..], indent)
    ensures i + |w| <= |t| && t[i..i + |w|] == w && Stands(t, i + |w|, u[n..], indent)
  {
    SplitAt(t, i, w, Text(u[n..], indent));
    TailOk(u, n);
  }

  lemma TailOk(u: string, n: nat)
    requires n <= |u| && SourceText(u)
    ensures SourceText(u[n..]) && forall c :: EndsWith(u[n..], c) ==> EndsWith(u, c)
  {
  }

  lemma LexTriple(t: string, i: nat, raw: string)
    requires i + 4 <= |t| && t[i..i + 4] == "\\\"\"\""
    ensures BlockFrom(t, i, raw) == BlockFrom(t, i + 4, raw + QUOTES)
  {
    assert t[i] == t[i..i + 4][0] && t[i + 1] == t[i..i + 4][1] && t[i + 2] == t[i..i + 4][2] && t[i + 3] == t[i..i + 4][3];
  }

  lemma TriplePiece(t: string, i: nat, u: string, indent: string, raw: string)
    requires QUOTES <= u && Stands(t, i, u, indent)
    ensures Piece(t, i, u, indent, raw, "\\\"\"\"", QUOTES, u[3..])
  {
    EscapeFirst(u, indent);
    PieceParts(t, i, u, indent, "\\\"\"\"", 3);
    LexTriple(t, i, raw);
    assert u[..3] == QUOTES;
    IndentRun(u, 3, indent);
  }

  lemma LexBreak(t: string, i: nat, indent: string, raw: string)
    requires i + 1 + |indent| <= |t| && t[i..i + 1 + |indent|] == "\n" + indent && Plain(indent)
    ensures BlockFrom(t, i, raw) == BlockFrom(t, i + 1 + |indent|, raw + ("\n" + indent))
  {
    LexPlain(t, i, "\n" + indent, raw);
  }

  lemma NewlinePiece(t: string, i: nat, u: string, indent: string, raw: string)
    requires u != "" && u[0] == '\n' && Stands(t, i, u, indent) && Plain(indent)
    ensures Piece(t, i, u, indent, raw, "\n" + indent, "\n" + indent, u[1..])
  {
    EscapeFirst(u, indent);
    PieceParts(t, i, u, indent, "\n" + indent, 1);
    LexBreak(t, i, indent, raw);
  }

  lemma LexOne(t: string, i: nat, c: char, raw: string)
    requires i < |t| && t[i..i + 1] == [c] && Plain([c])
    ensures BlockFrom(t, i, raw) == BlockFrom(t, i + 1, raw + [c])
  {
    assert t[i] == t[i..i + 1][0] && [c][0] == c;
  }

  lemma OtherPiece(t: string, i: nat, u: string, indent: string, raw: string)
    requires u != "" && u[0] != '\n' && u[0] != '"' && u[0] != '\\' && Stands(t, i, u, indent)
    ensures Piece(t, i, u, indent, raw, [u[0]], [u[0]], u[1..])
  {
    EscapeFirst(u, indent);
    PieceParts(t, i, u, indent, [u[0]], 1);
    LexOne(t, i, u[0], raw);
  }

  /** Three quotes begin at `k`. */
  predicate TripleAt(u: string, k: nat) {
    k + 3 <= |u| && u[k] == '"' && u[k + 1] == '"' && u[k + 2] == '"'
  }

  /** No three quotes begin in the first `n` characters, and there is no newline among them. */
  predicate Unescaped(u: string, n: nat) {
    n <= |u| && forall k | 0 <= k < n :: !TripleAt(u, k) && u[k] != '\n'
  }

  lemma TripleFirst(u: string)
    ensures QUOTES <= u <==> TripleAt(u, 0)
  {
  }

  lemma UnescapedTail(u: string, n: nat)
    requires 0 < n && Unescaped(u, n)
    ensures Unescaped(u[1..], n - 1)
  {
    forall k | 0 <= k < n - 1 ensures !TripleAt(u[1..], k) && u[1..][k] != '\n' {
      assert !TripleAt(u, k + 1) && u[k + 1] != '\n';
    }
  }

  /** Such a run is not changed by escaping either. */
  lemma {:induction false} EscapeRun(u: string, n: nat, indent: string)
    requires Unescaped(u, n)
    ensures Text(u, indent) == u[..n] + Text(u[n..], indent)
    decreases n
  {
    if n == 0 {
      assert u[0..] == u && u[..0] + Text(u, indent) == Text(u, indent);
    } else {
      assert !TripleAt(u, 0) && u[0] != '\n';
      TripleFirst(u);
      EscapeFirst(u, indent);
      UnescapedTail(u, n);
      EscapeRun(u[1..], n - 1, indent);
      assert u[1..][n - 1..] == u[n..];
      RunOn(u, n, Text(u[n..], indent));
    }
  }

  lemma RunOn(u: string, n: nat, more: string)
    requires 0 < n <= |u|
    ensures [u[0]] + (u[1..][..n - 1] + more) == u[..n] + more
  {
    assert [u[0]] + u[1..][..n - 1] == u[..n];
  }

  /** A run of quotes and backslashes ends where no quote follows that could make three. */
  predicate RunEnds(u: string, n: nat) {
    && n <= |u| && (n < |u| ==> u[n] != '"' || TripleAt(u, n))
    && (n == |u| ==> EndsWith(u, '"') || EndsWith(u, '\\'))
  }

  lemma RunParts(t: string, i: nat, u: string, n: nat, indent: string)
    requires Stands(t, i, u, indent) && 0 < n && Unescaped(u, n)
    ensures i + n <= |t| && t[i..i + n] == u[..n] && Stands(t, i + n, u[n..], indent)
    ensures |Text(u, indent)| == n + |Text(u[n..], indent)|
  {
    EscapeRun(u, n, indent);
    PieceParts(t, i, u, indent, u[..n], n);
  }

  lemma RunNext(t: string, i: nat, u: string, n: nat, indent: string)
    requires RunEnds(u, n) && Stands(t, i + n, u[n..], indent) && Follows(t, i, u, indent)
    requires |Text(u, indent)| == n + |Text(u[n..], indent)|
    ensures ByteAt(t, i + n) != '"'
  {
    if n == |u| {
      assert u[n..] == "" && Text("", indent) == "";
    } else {
      assert u[n..][0] == u[n];
      TripleFirst(u[n..]);
      NextByte(t, i + n, u[n..], indent);
    }
  }

  lemma RunIndented(u: string, n: nat, indent: string)
    requires Unescaped(u, n)
    ensures IndentLines(u, indent) == u[..n] + IndentLines(u[n..], indent)
  {
    IndentRun(u, n, indent);
  }

  lemma LexOneQuote(t: string, i: nat, raw: string)
    requires i + 1 <= |t| && t[i..i + 1] == ['"'] && ByteAt(t, i + 1) != '"'
    ensures BlockFrom(t, i, raw) == BlockFrom(t, i + 1, raw + ['"'])
  {
    assert t[i] == t[i..i + 1][0];
  }

  lemma LexTwoQuotes(t: string, i: nat, raw: string)
    requires i + 2 <= |t| && t[i..i + 2] == ['"', '"'] && ByteAt(t, i + 2) != '"'
    ensures BlockFrom(t, i, raw) == BlockFrom(t, i + 2, raw + ['"', '"'])
  {
    assert t[i] == t[i..i + 2][0] && t[i + 1] == t[i..i + 2][1];
  }

  lemma QuotePiece(t: string, i: nat, u: string, indent: string, raw: string) returns (n: nat)
    requires u != "" && u[0] == '"' && !(QUOTES <= u) && Stands(t, i, u, indent)
    ensures n <= |u| && Piece(t, i, u, indent, raw, u[..n], u[..n], u[n..])
  {
    n := FewQuotes(u);
    RunParts(t, i, u, n, indent);
    RunNext(t, i, u, n, indent);
    RunIndented(u, n, indent);
    if n == 1 { LexOneQuote(t, i, raw); } else { LexTwoQuotes(t, i, raw); }
  }

  /** One or two quotes in which no three begin. */
  lemma FewQuotes(u: string) returns (n: nat)
    requires u != "" && u[0] == '"' && !(QUOTES <= u)
    ensures 0 < n <= 2 && Unescaped(u, n) && RunEnds(u, n) && u[..n] == (if n == 1 then ['"'] else ['"', '"'])
  {
    TripleFirst(u);
    n := if |u| > 1 && u[1] == '"' then 2 else 1;
  }

  /** A backslash with fewer than three quotes behind it stays. */
  lemma LexBackslash(t: string, i: nat, p: string, raw: string)
    requires p == "\\" || p == "\\\"" || p == "\\\"\""
    requires i + |p| <= |t| && t[i..i + |p|] == p && ByteAt(t, i + |p|) != '"'
    ensures BlockFrom(t, i, raw) == BlockFrom(t, i + |p|, raw + p)
  {
    assert t[i] == t[i..i + |p|][0];
    if |p| > 1 { assert t[i + 1] == t[i..i + |p|][1]; }
    if |p| > 2 { assert t[i + 2] == t[i..i + |p|][2]; }
  }

  /** The backslash and the quotes behind it in which no three begin. */
  lemma BackslashRun(u: string) returns (n: nat)
    requires u != "" && u[0] == '\\'
    ensures 0 < n && Unescaped(u, n) && RunEnds(u, n) && (u[..n] == "\\" || u[..n] == "\\\"" || u[..n] == "\\\"\"")
  {
    n := if |u| == 1 || u[1] != '"' || TripleAt(u, 1) then 1 else if |u| > 2 && u[2] == '"' then 3 else 2;
    assert n == 1 ==> u[..n] == [u[0]];
    assert n == 2 ==> u[..n] == [u[0], u[1]];
    assert n == 3 ==> u[..n] == [u[0], u[1], u[2]];
  }

  lemma BackslashPiece(t: string, i: nat, u: string, indent: string, raw: string) returns (n: nat)
    requires u != "" && u[0] == '\\' && Stands(t, i, u, indent)
    ensures n <= |u| && Piece(t, i, u, indent, raw, u[..n], u[..n], u[n..])
  {
    n := BackslashRun(u);
    RunParts(t, i, u, n, indent);
    RunNext(t, i, u, n, indent);
    RunIndented(u, n, indent);
    LexBackslash(t, i, u[..n], raw);
  }

  // ---------------------------------------------------------------------------------------------
  // Lines
  // ---------------------------------------------------------------------------------------------

  predicate OneLine(line: string) { '\n' !in line && '\r' !in line }

  predicate OneLines(lines: seq<string>) {
    forall i | 0 <= i < |lines| :: OneLine(lines[i])
  }

  lemma {:induction false} SplitFirst(line: string, rest: string)
    requires OneLine(line)
    ensures SplitLines(line + "\n" + rest) == [line] + SplitLines(rest)
    ensures SplitLines(line) == [line]
  {
    if line == "" {
      assert ("" + "\n" + rest)[1..] == rest;
    } else {
      SplitFirst(line[1..], rest);
      assert (line + "\n" + rest)[1..] == line[1..] + "\n" + rest;
      assert [line[0]] + line[1..] == line;
    }
  }

  /** Lines that were joined are found again. */
  lemma {:induction false} SplitJoined(lines: seq<string>)
    requires lines != [] && OneLines(lines)
    ensures SplitLines(JoinLines(lines)) == lines
  {
    SplitFirst(lines[0], JoinLines(lines[1..]));
    if |lines| > 1 {
      SplitJoined(lines[1..]);
    } else {
      assert lines == [lines[0]];
    }
  }

  lemma {:induction false} SplitOneLines(s: string)
    ensures OneLines(SplitLines(s))
  {
    if s == "" {
    } else if s[0] == '\r' && |s| > 1 && s[1] == '\n' {
      SplitOneLines(s[2..]);
    } else {
      SplitOneLines(s[1..]);
    }
  }

  function Prefixed(lines: seq<string>, indent: string): (r: seq<string>)
    ensures |r| == |lines| && forall i | 0 <= i < |r| :: r[i] == indent + lines[i]
  {
    seq(|lines|, i requires 0 <= i < |lines| => indent + lines[i])
  }

  lemma {:induction false} IndentOneLine(line: string, rest: string, indent: string)
    requires '\n' !in line
    ensures IndentLines(line, indent) == line
    ensures IndentLines(line + "\n" + rest, indent) == line + "\n" + indent + IndentLines(rest, indent)
  {
    IndentRun(line, |line|, indent);
    assert line[..|line|] == line && line[|line|..] == "";
    var t := line + "\n" + rest;
    assert t[..|line|] == line && t[|line|..] == "\n" + rest && ("\n" + rest)[1..] == rest;
    IndentRun(t, |line|, indent);
    assert line + ("\n" + indent + IndentLines(rest, indent)) == line + "\n" + indent + IndentLines(rest, indent);
  }

  /** Indenting every line behind a newline, and the first one. */
  lemma {:induction false} IndentJoined(lines: seq<string>, indent: string)
    requires lines != [] && OneLines(lines)
    ensures indent + IndentLines(JoinLines(lines), indent) == JoinLines(Prefixed(lines, indent))
  {
    IndentOneLine(lines[0], JoinLines(lines[1..]), indent);
    var p := Prefixed(lines, indent);
    if |lines| > 1 {
      IndentJoined(lines[1..], indent);
      assert p[1..] == Prefixed(lines[1..], indent);
      var more := IndentLines(JoinLines(lines[1..]), indent);
      assert indent + (lines[0] + "\n" + indent + more) == (indent + lines[0]) + "\n" + (indent + more);
    }
  }

  // ---------------------------------------------------------------------------------------------
  // Values of block strings
  // ---------------------------------------------------------------------------------------------

  /** The lines of a block string's value: none, or blank at neither end; several lines have no indentation
      in common. */
  predicate ValueLines(lines: seq<string>) {
    && OneLines(lines) && (lines != [] ==> !IsBlank(lines[0]) && !IsBlank(lines[|lines| - 1]))
    && (|lines| > 1 ==> CommonIndent(lines) == 0)
  }

  ghost predicate IsBlockValue(v: string) {
    exists raw :: v == BlockStringValue(raw)
  }

  lemma {:induction false} TrimLeadingFacts(lines: seq<string>)
    ensures var r := TrimLeading(lines);
            && (OneLines(lines) ==> OneLines(r)) && (r != [] ==> !IsBlank(r[0]))
            && |r| <= |lines| && r == lines[|lines| - |r|..] && CommonIndent(r) == CommonIndent(lines)
  {
    if lines != [] && IsBlank(lines[0]) {
      TrimLeadingFacts(lines[1..]);
    }
  }

  lemma {:induction false} TrimTrailingFacts(lines: seq<string>)
    ensures var r := TrimTrailing(lines);
            && (OneLines(lines) ==> OneLines(r)) && (r != [] ==> !IsBlank(r[|r| - 1]))
            && |r| <= |lines| && r == lines[..|r|] && CommonIndent(r) == CommonIndent(lines)
    decreases |lines|
  {
    if lines != [] && IsBlank(lines[|lines| - 1]) {
      var n := |lines| - 1;
      TrimTrailingFacts(lines[..n]);
      CommonIndentSnoc(lines[..n], lines[n]);
      assert lines[..n] + [lines[n]] == lines;
    }
  }

  lemma {:induction false} CommonIndentSnoc(lines: seq<string>, line: string)
    requires IsBlank(line)
    ensures CommonIndent(lines + [line]) == CommonIndent(lines)
  {
    if lines == [] {
      assert (lines + [line])[1..] == [];
    } else {
      CommonIndentSnoc(lines[1..], line);
      assert (lines + [line])[1..] == lines[1..] + [line];
    }
  }

  /** Taking the common indentation away leaves none. */
  lemma {:induction false} DedentCommon(lines: seq<string>, n: int)
    requires n >= 0 && (CommonIndent(lines) == -1 || n <= CommonIndent(lines))
    ensures CommonIndent(lines) == -1 ==> CommonIndent(DedentAll(lines, n)) == -1
    ensures CommonIndent(lines) != -1 ==> CommonIndent(DedentAll(lines, n)) == CommonIndent(lines) - n
    ensures OneLines(lines) ==> OneLines(DedentAll(lines, n))
    decreases |lines|
  {
    var r := DedentAll(lines, n);
    if lines != [] {
      CommonIndentRange(lines[1..]);
      assert r[1..] == DedentAll(lines[1..], n);
      DedentOne(lines[0], n);
      DedentCommon(lines[1..], n);
    }
    if OneLines(lines) {
      forall i | 0 <= i < |r| ensures OneLine(r[i]) {
        assert OneLine(lines[i]);
      }
    }
  }

  lemma {:induction false} DedentOne(line: string, n: nat)
    requires IsBlank(line) || n <= LeadingWhitespace(line)
    ensures IsBlank(Dedented(line, n)) == IsBlank(line)
    ensures !IsBlank(line) ==> LeadingWhitespace(Dedented(line, n)) == LeadingWhitespace(line) - n
    decreases n
  {
    if n == 0 {
      assert line[0..] == line;
    } else if line != "" {
      DedentOne(line[1..], n - 1);
      assert n <= |line| ==> line[n..] == line[1..][n - 1..];
    }
  }

  /** The lines of a value; the empty value has none. */
  function LinesOf(v: string): seq<string> {
    if v == "" then [] else SplitLines(v)
  }

  lemma LinesOfJoined(lines: seq<string>)
    requires ValueLines(lines)
    ensures LinesOf(JoinLines(lines)) == lines
  {
    if lines != [] {
      SplitJoined(lines);
      assert lines[0] != "";
      assert JoinLines(lines) != "";
    }
  }

  /** What trimming leaves is a stretch of the lines. */
  lemma Trimmed(lines: seq<string>) returns (a: nat, b: nat)
    requires OneLines(lines)
    ensures var r := TrimTrailing(TrimLeading(lines));
            && a <= b <= |lines| && r == lines[a..b] && OneLines(r) && CommonIndent(r) == CommonIndent(lines)
            && (r != [] ==> !IsBlank(r[0]) && !IsBlank(r[|r| - 1]))
  {
    TrimLeadingFacts(lines);
    var led := TrimLeading(lines);
    TrimTrailingFacts(led);
    var r := TrimTrailing(led);
    a := |lines| - |led|;
    b := a + |r|;
    assert r == lines[a..][..|r|] == lines[a..b];
    assert r != [] ==> r[0] == led[0];
  }

  /** The lines behind the first have no indentation in common once it is taken away. */
  lemma DedentedLines(lines: seq<string>)
    requires OneLines(lines)
    ensures var r := DedentAll(lines, CommonIndent(lines)); OneLines(r) && -1 <= CommonIndent(r) <= 0
  {
    var n := CommonIndent(lines);
    CommonIndentRange(lines);
    if n >= 0 {
      DedentCommon(lines, n);
    } else {
      assert DedentAll(lines, n) == lines;
    }
  }

  /** A value of BlockStringValue is made of such lines. */
  lemma BlockValueLines(raw: string)
    ensures var v := BlockStringValue(raw); ValueLines(LinesOf(v)) && JoinLines(LinesOf(v)) == v
  {
    var lines := SplitLines(raw);
    SplitOneLines(raw);
    assert OneLines(lines[1..]);
    DedentedLines(lines[1..]);
    var rest := DedentAll(lines[1..], CommonIndent(lines[1..]));
    var all := [lines[0]] + rest;
    var a, b := Trimmed(all);
    var r := all[a..b];
    if |r| > 1 {
      assert r[|r| - 1] == all[b - 1] == rest[b - 2];
      TrimmedCommon(lines[0], rest, r);
    }
    LinesOfJoined(r);
  }

  /** Several lines are left, the last of them from behind the first line, so some of them had the common
      indentation. */
  lemma TrimmedCommon(first: string, rest: seq<string>, r: seq<string>)
    requires -1 <= CommonIndent(rest) <= 0 && |r| > 1 && !IsBlank(r[|r| - 1]) && r[|r| - 1] in rest
    requires CommonIndent(r) == CommonIndent([first] + rest)
    ensures CommonIndent(r) == 0
  {
    NotAllBlank(rest, r[|r| - 1]);
    assert ([first] + rest)[1..] == rest;
  }

  lemma {:induction false} NotAllBlank(lines: seq<string>, line: string)
    requires line in lines && !IsBlank(line)
    ensures CommonIndent(lines) != -1
  {
    if lines[0] != line {
      NotAllBlank(lines[1..], line);
    }
  }

  // ---------------------------------------------------------------------------------------------
  // Printed values
  // ---------------------------------------------------------------------------------------------

  /** The raw value that the printed text stands for. */
  function PrintedRaw(v: string, level: nat): string {
    Head(v, level) + IndentLines(v, Spaces(2 * level) + "  ") + Foot(v, level)
  }

  lemma {:induction false} SpacesBlank(s: string)
    requires forall i | 0 <= i < |s| :: s[i] == ' '
    ensures IsBlank(s)
  {
    if s != "" {
      SpacesBlank(s[1..]);
    }
  }

  lemma {:induction false} LeadingSpaces(indent: string, line: string)
    requires forall i | 0 <= i < |indent| :: indent[i] == ' '
    ensures LeadingWhitespace(indent + line) == |indent| + LeadingWhitespace(line)
    ensures IsBlank(indent + line) == IsBlank(line)
  {
    if indent == "" {
      assert indent + line == line;
    } else {
      LeadingSpaces(indent[1..], line);
      assert (indent + line)[1..] == indent[1..] + line;
    }
  }

  /** Indented lines have the indentation in common, and taking it away gives the lines back. */
  lemma {:induction false} CommonPrefixed(lines: seq<string>, indent: string)
    requires forall i | 0 <= i < |indent| :: indent[i] == ' '
    ensures CommonIndent(Prefixed(lines, indent)) ==
              if CommonIndent(lines) == -1 then -1 else |indent| + CommonIndent(lines)
    ensures |indent| > 0 ==> DedentAll(Prefixed(lines, indent), |indent|) == lines
  {
    if lines != [] {
      LeadingSpaces(indent, lines[0]);
      CommonIndentRange(lines[1..]);
      CommonPrefixed(lines[1..], indent);
      assert Prefixed(lines, indent)[1..] == Prefixed(lines[1..], indent);
    }
    forall i | 0 <= i < |lines| ensures Dedented(Prefixed(lines, indent)[i], |indent|) == lines[i] {
      assert (indent + lines[i])[|indent|..] == lines[i];
    }
  }

  lemma {:induction false} JoinSnoc(lines: seq<string>, last: string)
    requires lines != []
    ensures JoinLines(lines + [last]) == JoinLines(lines) + "\n" + last
  {
    if |lines| > 1 {
      JoinSnoc(lines[1..], last);
      assert (lines + [last])[1..] == lines[1..] + [last];
    } else {
      assert (lines + [last])[1..] == [last];
    }
  }

  lemma {:induction false} JoinNewlines(lines: seq<string>)
    requires lines != [] && OneLines(lines)
    ensures SingleLine(JoinLines(lines)) <==> |lines| == 1
  {
    if |lines| > 1 {
      assert JoinLines(lines)[|lines[0]|] == '\n';
    }
  }

  lemma IndentedText(lines: seq<string>, indent: string, foot: string)
    requires OneLines(lines) && lines != [] && OneLine(indent) && OneLine(foot)
    ensures var all := [""] + (Prefixed(lines, indent) + [foot]);
            && "\n" + indent + IndentLines(JoinLines(lines), indent) + "\n" + foot == JoinLines(all) && OneLines(all)
  {
    var body := Prefixed(lines, indent);
    var all := [""] + (body + [foot]);
    var text := IndentLines(JoinLines(lines), indent);
    IndentJoined(lines, indent);
    JoinSnoc(body, foot);
    assert all[1..] == body + [foot];
    assert "\n" + indent + text + "\n" + foot == "" + "\n" + ((indent + text) + "\n" + foot);
    forall i | 0 <= i < |lines| ensures OneLine(body[i]) { assert OneLine(lines[i]); }
  }

  /** A value printed over several lines, all of them indented. */
  lemma IndentedValue(lines: seq<string>, level: nat)
    requires ValueLines(lines) && lines != [] && CommonIndent(lines) == 0
    ensures var indent := Spaces(2 * level) + "  ";
            BlockStringValue("\n" + indent + IndentLines(JoinLines(lines), indent) + "\n" + Spaces(2 * level)) == JoinLines(lines)
  {
    var foot := Spaces(2 * level);
    var indent := foot + "  ";
    var body := Prefixed(lines, indent);
    var rest := body + [foot];
    var all := [""] + rest;
    IndentedText(lines, indent, foot);
    assert all[1..] == rest;
    SplitJoined(all);
    SpacesBlank(foot);
    CommonPrefixed(lines, indent);
    CommonIndentSnoc(body, foot);
    DedentPrinted(lines, body, indent, foot);
  }

  lemma DedentPrinted(lines: seq<string>, body: seq<string>, indent: string, foot: string)
    requires ValueLines(lines) && lines != [] && |foot| < |indent|
    requires DedentAll(body, |indent|) == lines && CommonIndent(body + [foot]) == |indent|
    ensures JoinLines(TrimTrailing(TrimLeading([""] + DedentAll(body + [foot], CommonIndent(body + [foot]))))) == JoinLines(lines)
  {
    var dedented := DedentAll(body + [foot], |indent|);
    assert dedented == lines + [""];
    var all := [""] + dedented;
    assert all[1..] == dedented;
    assert TrimLeading(all) == TrimLeading(dedented) == dedented;
    assert dedented[..|lines|] == lines;
    assert TrimTrailing(dedented) == TrimTrailing(lines) == lines;
  }

  lemma OneLineValue(v: string)
    requires OneLine(v) && (v == "" || !IsBlank(v))
    ensures BlockStringValue(v) == v
  {
    SplitFirst(v, "");
    assert [v][1..] == [];
    assert [v] + DedentAll([], -1) == [v];
    if v != "" {
      assert TrimLeading([v]) == [v] && TrimTrailing([v]) == [v];
    } else {
      assert TrimLeading([v]) == TrimLeading([v][1..]);
    }
  }

  /** One line with leading space and a blank line behind it. */
  lemma FootedValue(v: string, foot: string)
    requires OneLine(v) && !IsBlank(v) && IsBlank(foot) && OneLine(foot)
    ensures BlockStringValue(v + "\n" + foot) == v
  {
    SplitFirst(v, foot);
    SplitFirst(foot, "");
    var lines := [v] + [foot];
    assert lines == [v, foot] && lines[1..] == [foot] && [foot][1..] == [];
    assert CommonIndent([foot]) == -1;
    assert [v] + DedentAll([foot], -1) == lines;
    assert TrimLeading(lines) == lines;
    assert lines[..1] == [v];
    assert TrimTrailing(lines) == TrimTrailing([v]) == [v];
  }

  lemma SingleLineValue(v: string)
    requires ValueLines(LinesOf(v)) && JoinLines(LinesOf(v)) == v
    ensures SingleLine(v) <==> |LinesOf(v)| <= 1
    ensures SingleLine(v) ==> OneLine(v) && (v == "" || (!IsBlank(v) && LinesOf(v) == [v]))
  {
    if v != "" {
      JoinNewlines(LinesOf(v));
      if |LinesOf(v)| == 1 { assert OneLine(LinesOf(v)[0]) && LinesOf(v)[0] == v; }
    }
  }

  lemma PrintedOneLine(v: string, level: nat)
    requires OneLine(v) && (v == "" || !IsBlank(v)) && (!EndsWith(v, '"') || LeadingSpace(v))
    ensures BlockStringValue(PrintedRaw(v, level)) == v
  {
    var foot := Spaces(2 * level);
    RawOneLine(v, level);
    if EndsWith(v, '"') {
      SpacesBlank(foot);
      FootedValue(v, foot);
    } else {
      OneLineValue(v);
    }
  }

  lemma RawOneLine(v: string, level: nat)
    requires OneLine(v) && (!EndsWith(v, '"') || LeadingSpace(v))
    ensures PrintedRaw(v, level) == if EndsWith(v, '"') then v + "\n" + Spaces(2 * level) else v
  {
    IndentOneLine(v, "", Spaces(2 * level) + "  ");
    if EndsWith(v, '"') {
      assert "" + v + ("\n" + Spaces(2 * level)) == v + "\n" + Spaces(2 * level);
    } else {
      assert "" + v + "" == v;
    }
  }

  lemma PrintedLines(v: string, level: nat)
    requires ValueLines(LinesOf(v)) && JoinLines(LinesOf(v)) == v && LinesOf(v) != [] && CommonIndent(LinesOf(v)) == 0
    requires MultipleLines(v) && !(SingleLine(v) && LeadingSpace(v))
    ensures BlockStringValue(PrintedRaw(v, level)) == v
  {
    var foot := Spaces(2 * level);
    var indent := foot + "  ";
    IndentedValue(LinesOf(v), level);
    RawText(foot, IndentLines(v, indent));
  }

  lemma RawText(foot: string, body: string)
    ensures ("\n" + foot + "  ") + body + ("\n" + foot) == "\n" + (foot + "  ") + body + "\n" + foot
  {
  }

  /** What is printed stands for the value, at every indent level. */
  lemma PrintedValue(v: string, level: nat)
    requires ValueLines(LinesOf(v)) && JoinLines(LinesOf(v)) == v
    ensures BlockStringValue(PrintedRaw(v, level)) == v
  {
    SingleLineValue(v);
    if SingleLine(v) && (!EndsWith(v, '"') || LeadingSpace(v)) {
      PrintedOneLine(v, level);
    } else {
      var lines := LinesOf(v);
      if |lines| == 1 { assert lines[1..] == [] && LeadingWhitespace(v) == 0; }
      PrintedLines(v, level);
    }
  }

  /** The values of BlockStringValue are exactly the strings made of such lines. */
  lemma BlockValuesExactly(v: string)
    ensures IsBlockValue(v) <==> ValueLines(LinesOf(v)) && JoinLines(LinesOf(v)) == v
  {
    if IsBlockValue(v) {
      var raw :| v == BlockStringValue(raw);
      BlockValueLines(raw);
    }
    if ValueLines(LinesOf(v)) && JoinLines(LinesOf(v)) == v {
      PrintedValue(v, 0);
    }
  }

  // ---------------------------------------------------------------------------------------------
  // The round trip
  // ---------------------------------------------------------------------------------------------

  /** The text of `v` in front of `rest`, part by part. */
  lemma PrintedParts(v: string, level: nat, rest: string) returns (t: string, i: nat, j: nat, k: nat)
    ensures t == PrintBlock(v, level) + rest
    ensures i == 3 + |Head(v, level)| && j == i + |IndentLines(EscapeQuotes(v), Spaces(2 * level) + "  ")|
            && k == j + |Foot(v, level)| && k + 3 == |PrintBlock(v, level)| <= |t|
    ensures t[..3] == QUOTES && t[3..i] == Head(v, level) && EscapedAt(t, i, v, Spaces(2 * level) + "  ")
    ensures t[j..k] == Foot(v, level) && t[k..k + 3] == QUOTES && t[k + 3..] == rest
  {
    var body := IndentLines(EscapeQuotes(v), Spaces(2 * level) + "  ");
    t := PrintBlock(v, level) + rest;
    i, j, k := Parts(QUOTES, Head(v, level), body, Foot(v, level), rest);
  }

  lemma Parts(q: string, head: string, body: string, foot: string, rest: string) returns (i: nat, j: nat, k: nat)
    ensures i == |q| + |head| && j == i + |body| && k == j + |foot| && k + |q| == |q + head + body + foot + q|
    ensures var t := q + head + body + foot + q + rest;
            && k + |q| <= |t| && t[..|q|] == q && t[|q|..i] == head && t[i..j] == body && t[j..k] == foot
            && t[k..k + |q|] == q && t[k + |q|..] == rest
  {
    i := |q| + |head|;
    j := i + |body|;
    k := j + |foot|;
  }

  /** The closing quotes. */
  lemma LexClose(t: string, k: nat, raw: string)
    requires k + 3 <= |t| && t[k..k + 3] == QUOTES
    ensures BlockFrom(t, k, raw) == Ok((raw, k + 3))
  {
    assert t[k] == t[k..k + 3][0] && t[k + 1] == t[k..k + 3][1] && t[k + 2] == t[k..k + 3][2];
  }

  lemma LexOpen(t: string)
    requires |t| >= 3 && t[..3] == QUOTES
    ensures LexQuote(t) == match BlockFrom(t, 3, "")
                           case Err(e) => Err(e)
                           case Ok((raw, end)) => Ok((Token(BlockString, BlockStringValue(raw)), end))
  {
    assert t[0] == t[..3][0] && t[1] == t[..3][1] && t[2] == t[..3][2];
  }

  lemma LexPrinted(v: string, level: nat, rest: string)
    requires SourceText(v) && !(SingleLine(v) && EndsWith(v, '\\'))
    ensures LexQuote(PrintBlock(v, level) + rest)
              == Ok((Token(BlockString, BlockStringValue(PrintedRaw(v, level))), |PrintBlock(v, level)|))
  {
    var t, i, j, k := PrintedParts(v, level, rest);
    var head, body, foot := Head(v, level), IndentLines(v, Spaces(2 * level) + "  "), Foot(v, level);
    LexOpen(t);
    HeadAndFoot(v, level);
    if foot != "" { assert t[j] == t[j..k][0]; }
    LexMiddle(t, i, j, k, v, Spaces(2 * level) + "  ", head, foot);
    assert head + body + foot == PrintedRaw(v, level);
  }

  lemma HeadAndFoot(v: string, level: nat)
    ensures Plain(Head(v, level)) && Plain(Foot(v, level)) && Plain(Spaces(2 * level) + "  ")
    ensures if MultipleLines(v) then Foot(v, level) != "" && Foot(v, level)[0] == '\n' else Foot(v, level) == ""
  {
  }

  lemma LexMiddle(t: string, i: nat, j: nat, k: nat, v: string, indent: string, head: string, foot: string)
    requires 3 <= i <= j <= k && k + 3 <= |t| && Plain(head) && Plain(foot) && Plain(indent) && SourceText(v)
    requires t[3..i] == head && EscapedAt(t, i, v, indent) && j == i + |IndentLines(EscapeQuotes(v), indent)|
    requires t[j..k] == foot && t[k..k + 3] == QUOTES
    requires EndsWith(v, '"') || EndsWith(v, '\\') ==> t[j] != '"'
    ensures BlockFrom(t, 3, "") == Ok((head + IndentLines(v, indent) + foot, k + 3))
  {
    LexToFoot(t, i, v, indent, head);
    LexFoot(t, j, k, head + IndentLines(v, indent), foot);
  }

  lemma LexToFoot(t: string, i: nat, v: string, indent: string, head: string)
    requires 3 <= i <= |t| && t[3..i] == head && Plain(head) && Plain(indent) && Stands(t, i, v, indent)
    ensures BlockFrom(t, 3, "") == BlockFrom(t, i + |Text(v, indent)|, head + IndentLines(v, indent))
  {
    LexPlain(t, 3, head, "");
    assert "" + head == head;
    LexEscaped(t, i, v, indent, head);
  }

  lemma LexFoot(t: string, j: nat, k: nat, raw: string, foot: string)
    requires j <= k && k + 3 <= |t| && t[j..k] == foot && Plain(foot) && t[k..k + 3] == QUOTES
    ensures BlockFrom(t, j, raw) == Ok((raw + foot, k + 3))
  {
    LexPlain(t, j, foot, raw);
    LexClose(t, k, raw + foot);
  }

  lemma {:induction false} EscapeSnoc(u: string)
    ensures EscapeQuotes(u + "\\") == EscapeQuotes(u) + "\\"
  {
    var t := u + "\\";
    if u == "" {
      assert t[1..] == "";
    } else if QUOTES <= u {
      EscapeSnoc(u[3..]);
      assert t[3..] == u[3..] + "\\" && t[..3] == u[..3];
    } else {
      EscapeSnoc(u[1..]);
      assert t[1..] == u[1..] + "\\";
      assert |u| >= 3 ==> t[..3] == u[..3];
      assert |u| == 2 ==> t[2] == '\\';
    }
  }

  /** The first line of a value that is not blank stays. */
  lemma FirstLineStays(raw: string, p: string)
    requires p <= raw && OneLine(p) && !IsBlank(p)
    ensures p <= BlockStringValue(raw)
  {
    var lines := SplitLines(raw);
    SplitPrefix(raw, p);
    BlankPrefix(lines[0], p);
    var all := [lines[0]] + DedentAll(lines[1..], CommonIndent(lines[1..]));
    assert TrimLeading(all) == all;
    TrimTrailingFirst(all);
  }

  lemma {:induction false} SplitPrefix(raw: string, p: string)
    requires p <= raw && OneLine(p)
    ensures p <= SplitLines(raw)[0]
  {
    if p != "" {
      assert raw[0] == p[0] && p[1..] <= raw[1..];
      SplitPrefix(raw[1..], p[1..]);
      var rest := SplitLines(raw[1..])[0];
      assert [raw[0]] + rest == SplitLines(raw)[0] && p == [p[0]] + p[1..];
    }
  }

  lemma {:induction false} BlankPrefix(line: string, p: string)
    requires p <= line && !IsBlank(p)
    ensures !IsBlank(line)
  {
    if IsBlankChar(p[0]) {
      assert p[1..] <= line[1..];
      BlankPrefix(line[1..], p[1..]);
    }
  }

  lemma {:induction false} TrimTrailingFirst(lines: seq<string>)
    requires lines != [] && !IsBlank(lines[0])
    ensures lines[0] <= JoinLines(TrimTrailing(lines))
    decreases |lines|
  {
    if IsBlank(lines[|lines| - 1]) {
      TrimTrailingFirst(lines[..|lines| - 1]);
    }
  }

  /** The backslash and the quotes behind it lex to the quotes. */
  lemma LexEscapedClose(t: string, m: nat, raw: string)
    requires m + 4 <= |t| && t[m..m + 1] == "\\" && t[m + 1..m + 4] == QUOTES
    ensures BlockFrom(t, m, raw) == BlockFrom(t, m + 4, raw + QUOTES)
  {
    assert t[m] == t[m..m + 1][0];
    assert t[m + 1] == t[m + 1..m + 4][0] && t[m + 2] == t[m + 1..m + 4][1] && t[m + 3] == t[m + 1..m + 4][2];
  }

  lemma BackslashText(u: string, level: nat, rest: string)
    requires SourceText(u) && OneLine(u)
    ensures var t := PrintBlock(u + "\\", level) + rest;
            |t| >= 3 && t[..3] == QUOTES && exists m: nat :: BlockFrom(t, 3, "") == BlockFrom(t, m, u + QUOTES)
  {
    var v := u + "\\";
    var indent := Spaces(2 * level) + "  ";
    var t, i, j, k := PrintedParts(v, level, rest);
    EscapeSnoc(u);
    EscapedOneLine(u, indent);
    EscapedOneLine(v, indent);
    var e := EscapeQuotes(u);
    SplitAt(t, 3, e, "\\");
    LexEscaped(t, 3, u, indent, "");
    IndentOneLine(u, "", indent);
    assert "" + u == u;
    LexEscapedClose(t, 3 + |e|, u);
  }

  /** A single line that ends in a backslash escapes the quotes that should close it. */
  lemma BackslashBreaks(v: string, level: nat, rest: string)
    requires SourceText(v) && OneLine(v) && EndsWith(v, '\\')
    ensures var r := LexQuote(PrintBlock(v, level) + rest); r.Ok? ==> r.value.0 != Token(BlockString, v)
  {
    var u := v[..|v| - 1];
    assert v == u + "\\";
    BackslashText(u, level, rest);
    var t := PrintBlock(v, level) + rest;
    var m: nat :| BlockFrom(t, 3, "") == BlockFrom(t, m, u + QUOTES);
    LexOpen(t);
    var r := BlockFrom(t, m, u + QUOTES);
    if r.Ok? {
      QuotesNotBlank(u);
      FirstLineStays(r.value.0, u + QUOTES);
    }
  }

  lemma {:induction false} EscapedOneLine(u: string, indent: string)
    requires OneLine(u)
    ensures OneLine(EscapeQuotes(u)) && IndentLines(EscapeQuotes(u), indent) == EscapeQuotes(u)
  {
    EscapeOneLine(u);
    IndentOneLine(EscapeQuotes(u), "", indent);
  }

  lemma {:induction false} EscapeOneLine(u: string)
    requires OneLine(u)
    ensures OneLine(EscapeQuotes(u))
  {
    if u != "" {
      if QUOTES <= u { EscapeOneLine(u[3..]); } else { EscapeOneLine(u[1..]); }
    }
  }

  lemma {:induction false} QuotesNotBlank(u: string)
    ensures !IsBlank(u + QUOTES)
  {
    if u == "" {
      assert u + QUOTES == QUOTES;
    } else {
      assert (u + QUOTES)[1..] == u[1..] + QUOTES;
      QuotesNotBlank(u[1..]);
    }
  }

  /** Printing a block string and lexing it gives the value back, at every indent level and in front of
      any text, exactly if the value is not a single line that ends in a backslash. */
  lemma BlockStringsRoundTrip(v: string, level: nat, rest: string)
    requires IsBlockValue(v) && SourceText(v)
    ensures (LexQuote(PrintBlock(v, level) + rest) == Ok((Token(BlockString, v), |PrintBlock(v, level)|)))
              <==> !(SingleLine(v) && EndsWith(v, '\\'))
  {
    BlockValuesExactly(v);
    if SingleLine(v) && EndsWith(v, '\\') {
      SingleLineValue(v);
      BackslashBreaks(v, level, rest);
    } else {
      LexPrinted(v, level, rest);
      PrintedValue(v, level);
    }
  }

  lemma {:induction false} IndentedB()
    ensures LeadingWhitespace("a") == 0 && LeadingWhitespace("  b") == 2
  {
    assert "  b"[1..] == " b" && " b"[1..] == "b";
    assert LeadingWhitespace("b") == 0;
    assert LeadingWhitespace(" b") == 1;
  }

  /** BlockStringValue is not idempotent: this value of it is not its own value. */
  lemma NotIdempotent()
    ensures IsBlockValue("a\n  b") && BlockStringValue("a\n  b") == "a\nb"
  {
    var v, lines := "a\n  b", ["a", "  b"];
    IndentedB();
    assert v == "a" + "\n" + "  b";
    SplitFirst("a", "  b");
    SplitFirst("  b", "");
    assert lines[1..] == ["  b"] && ["  b"][1..] == [];
    assert CommonIndent(["  b"]) == 2 && CommonIndent(lines) == 0;
    assert JoinLines(["  b"]) == "  b";
    assert JoinLines(lines) == v;
    BlockValuesExactly(v);
    NotIdempotentValue();
  }

  lemma {:induction false} NotIdempotentValue()
    requires SplitLines("a\n  b") == ["a", "  b"] && CommonIndent(["  b"]) == 2
    ensures BlockStringValue("a\n  b") == "a\nb"
  {
    assert ["a", "  b"][1..] == ["  b"] && "  b"[2..] == "b";
    assert ["a"] + DedentAll(["  b"], 2) == ["a", "b"];
    TwoLines("a", "b");
  }

  /** Two lines that are not blank. */
  lemma {:induction false} TwoLines(x: string, y: string)
    requires !IsBlank(x) && !IsBlank(y)
    ensures TrimTrailing(TrimLeading([x, y])) == [x, y] && JoinLines([x, y]) == x + "\n" + y
  {
    assert [x, y][1..] == [y] && JoinLines([y]) == y;
  }
}
