/** The value of a block string (graphql/internal/lexer/block_string_value.go). */
module BlockStrings {

  predicate IsBlankChar(c: char) { c == ' ' || c == '\t' }

  /** The number of spaces and tabs that the line starts with. */
  function LeadingWhitespace(line: string): (n: nat)
    ensures n <= |line|
  {
    if line != "" && IsBlankChar(line[0]) then 1 + LeadingWhitespace(line[1..]) else 0
  }

  predicate IsBlank(line: string) {
    LeadingWhitespace(line) == |line|
  }

  /** Splits at "\r\n", "\n" and "\r". */
  function SplitLines(s: string): (lines: seq<string>)
    ensures lines != []
  {
    if s == "" then [""]
    else if s[0] == '\r' && |s| > 1 && s[1] == '\n' then [""] + SplitLines(s[2..])
    else if s[0] == '\n' || s[0] == '\r' then [""] + SplitLines(s[1..])
    else
      var rest := SplitLines(s[1..]);
      [[s[0]] + rest[0]] + rest[1..]
  }

  function JoinLines(lines: seq<string>): string {
    if lines == [] then "" else if |lines| == 1 then lines[0] else lines[0] + "\n" + JoinLines(lines[1..])
  }

  /** The least indentation of the lines that are not blank, or -1 if all are. */
  function CommonIndent(lines: seq<string>): int {
    if lines == [] then -1
    else
      var rest := CommonIndent(lines[1..]);
      var indent := LeadingWhitespace(lines[0]);
      if IsBlank(lines[0]) || (rest != -1 && rest <= indent) then rest else indent
  }

  /** The line without `n` characters of indentation. */
  function Dedented(line: string, n: nat): string {
    if n > |line| then "" else line[n..]
  }

  function DedentAll(lines: seq<string>, n: int): (r: seq<string>)
    ensures |r| == |lines|
    ensures forall i | 0 <= i < |r| :: r[i] == if n > 0 then Dedented(lines[i], n) else lines[i]
  {
    seq(|lines|, i requires 0 <= i < |lines| => if n > 0 then Dedented(lines[i], n) else lines[i])
  }

  function TrimLeading(lines: seq<string>): seq<string> {
    if lines != [] && IsBlank(lines[0]) then TrimLeading(lines[1..]) else lines
  }

  function TrimTrailing(lines: seq<string>): seq<string> {
    if lines != [] && IsBlank(lines[|lines| - 1]) then TrimTrailing(lines[..|lines| - 1]) else lines
  }

  /** The static algorithm BlockStringValue() of section 2.9.4 of the GraphQL specification (June 2018). */
  function BlockStringValue(raw: string): string {
    var lines := SplitLines(raw);
    JoinLines(TrimTrailing(TrimLeading([lines[0]] + DedentAll(lines[1..], CommonIndent(lines[1..])))))
  }

  // ---------------------------------------------------------------------------------------------
  // The loops
  // ---------------------------------------------------------------------------------------------

  method CountLeadingWhitespace(line: string) returns (n: nat)
    ensures n == LeadingWhitespace(line)
  {
    n := 0;
    while n < |line|
      invariant n <= |line| && n + LeadingWhitespace(line[n..]) == LeadingWhitespace(line)
    {
      if !IsBlankChar(line[n]) { break; }
      assert line[n..][1..] == line[n + 1..];
      n := n + 1;
    }
  }

  /** CommonIndent looks at the lines from the first; so does this loop, which stops at an indent of 0. */
  method FindCommonIndent(lines: seq<string>) returns (commonIndent: int)
    requires lines != []
    ensures commonIndent == CommonIndent(lines[1..])
  {
    commonIndent := -1;
    var i := 1;
    while i < |lines|
      invariant 1 <= i <= |lines| && commonIndent >= -1
      invariant MinIndent(commonIndent, CommonIndent(lines[i..])) == CommonIndent(lines[1..])
    {
      var line := lines[i];
      var indent := CountLeadingWhitespace(line);
      assert lines[i..][1..] == lines[i + 1..];
      CommonIndentRange(lines[i + 1..]);
      if indent < |line| && (commonIndent == -1 || indent < commonIndent) {
        commonIndent := indent;
        if commonIndent == 0 {
          break;
        }
      }
      i := i + 1;
    }
    CommonIndentRange(lines[i..]);
  }

  function MinIndent(a: int, b: int): int {
    if a == -1 then b else if b == -1 || a <= b then a else b
  }

  lemma {:induction false} CommonIndentRange(lines: seq<string>)
    ensures CommonIndent(lines) >= -1
  {
    if lines != [] {
      CommonIndentRange(lines[1..]);
    }
  }

  /** BlockStringValue as the source computes it: the lines are rewritten in place, then cut at both ends. */
  /** Takes the common indentation from all lines but the first. */
  method DedentLines(split: seq<string>, commonIndent: int) returns (result: seq<string>)
    requires split != []
    ensures result == [split[0]] + DedentAll(split[1..], commonIndent)
  {
    var lines := new string[|split|](i requires 0 <= i < |split| => split[i]);
    if commonIndent > 0 {
      var i := 1;
      while i < lines.Length
        invariant 1 <= i <= lines.Length
        invariant forall k | 0 <= k < i :: lines[k] == if k == 0 then split[0] else Dedented(split[k], commonIndent)
        invariant forall k | i <= k < lines.Length :: lines[k] == split[k]
      {
        var line := lines[i];
        if commonIndent > |line| {
          lines[i] := "";
        } else {
          lines[i] := line[commonIndent..];
        }
        i := i + 1;
      }
    }
    result := lines[..];
  }

  /** Removes the blank lines at both ends. */
  method TrimLines(lines: seq<string>) returns (rest: seq<string>)
    ensures rest == TrimTrailing(TrimLeading(lines))
  {
    rest := lines;
    while |rest| > 0 && IsBlank(rest[0])
      invariant TrimLeading(rest) == TrimLeading(lines)
    {
      rest := rest[1..];
    }
    ghost var led := rest;
    while |rest| > 0 && IsBlank(rest[|rest| - 1])
      invariant TrimTrailing(rest) == TrimTrailing(led)
    {
      rest := rest[..|rest| - 1];
    }
  }

  method ComputeBlockStringValue(raw: string) returns (value: string)
    ensures value == BlockStringValue(raw)
  {
    var split := SplitLines(raw);
    var commonIndent := FindCommonIndent(split);
    var lines := DedentLines(split, commonIndent);
    lines := TrimLines(lines);
    value := JoinLines(lines);
  }
}
