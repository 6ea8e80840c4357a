/** The tokens that the lexer makes are well-formed. */
module LexedTokens {
  import opened Wrappers
  import opened BlockStrings
  import opened BlockStringRoundTrip
  import opened Lexing
  import opened WellFormed

  ghost predicate TokenOk(t: Token) {
    match t.kind
    case Name => IsName(t.value)
    case Int => IsNumber(Int, t.value)
    case Float => IsNumber(Float, t.value)
    case String => true
    case BlockString => IsStringValue(t.value, true)
    case _ => t.value == ""
  }

  ghost predicate TokensOk(ts: seq<Token>) {
    && (forall i | 0 <= i < |ts| :: TokenOk(ts[i]))
    && (forall i | 0 <= i < |ts| && ts[i].kind == EOF :: i == |ts| - 1)
  }

  lemma {:induction false} NameCharacters(s: string, i: nat)
    requires i <= |s|
    ensures forall k | i <= k < NameEnd(s, i) :: IsNameChar(s[k])
    decreases |s| - i
  {
    if i < |s| && IsNameChar(s[i]) { NameCharacters(s, i + 1); }
  }

  lemma {:induction false} DigitsCut(s: string, i: nat, k: nat)
    requires i <= DigitsEnd(s, i) <= k <= |s|
    ensures DigitsEnd(s[..k], i) == DigitsEnd(s, i)
    decreases |s| - i
  {
    if i < |s| && IsDigit(s[i]) { DigitsCut(s, i + 1, k); }
  }

  /** A part that ends within the first `k` bytes ends there without the other bytes, too. */
  lemma SomeDigitsCut(s: string, i: nat, k: nat)
    requires SomeDigitsEnd(s, i).Ok? && SomeDigitsEnd(s, i).value <= k <= |s|
    ensures SomeDigitsEnd(s[..k], i) == SomeDigitsEnd(s, i)
  {
    DigitsCut(s, i + 1, k);
  }

  lemma FractionCut(s: string, i: nat, k: nat)
    requires FractionEnd(s, i).Ok? && FractionEnd(s, i).value <= k <= |s|
    ensures FractionEnd(s[..k], i) == FractionEnd(s, i)
  {
    if ByteAt(s, i) == '.' { SomeDigitsCut(s, i + 1, k); }
  }

  lemma ExponentCut(s: string, i: nat, k: nat)
    requires ExponentEnd(s, i) == Ok(k) && k <= |s|
    ensures ExponentEnd(s[..k], i) == Ok(k)
  {
    if HasExponent(s, i) {
      SomeDigitsCut(s, if ByteAt(s, i + 1) == '+' || ByteAt(s, i + 1) == '-' then i + 2 else i + 1, k);
    }
  }

  lemma IntegerCut(s: string, k: nat)
    requires s != "" && (s[0] == '-' || IsDigit(s[0])) && IntegerEnd(s).Ok? && IntegerEnd(s).value <= k <= |s|
    ensures IntegerEnd(s[..k]) == IntegerEnd(s)
  {
    var i := if s[0] == '-' then 1 else 0;
    if ByteAt(s, i) != '0' { DigitsCut(s, i + 1, k); }
  }

  lemma NumberCut(s: string, kind: Kind, k: nat)
    requires s != "" && (s[0] == '-' || IsDigit(s[0])) && k <= |s| && LexNumber(s) == Ok((Token(kind, s[..k]), k))
    ensures IsNumber(kind, s[..k])
  {
    var i := IntegerEnd(s).value;
    var j := FractionEnd(s, i).value;
    IntegerCut(s, k);
    FractionCut(s, i, k);
    ExponentCut(s, j, k);
    assert s[..k][..k] == s[..k];
  }

  predicate RawText(s: string) {
    forall i | 0 <= i < |s| :: s[i] as int >= 0x20 || s[i] == '\t' || s[i] == '\n' || s[i] == '\r'
  }

  lemma {:induction false} BlockText(s: string, i: nat, raw: string)
    requires RawText(raw) && BlockFrom(s, i, raw).Ok?
    ensures RawText(BlockFrom(s, i, raw).value.0)
    decreases |s| - i
  {
    if s[i] == '"' {
      if ByteAt(s, i + 1) != '"' { BlockText(s, i + 1, raw + "\""); }
      else if ByteAt(s, i + 2) != '"' { BlockText(s, i + 2, raw + "\"\""); }
    } else if s[i] == '\\' {
      if ByteAt(s, i + 1) != '"' { BlockText(s, i + 1, raw + "\\"); }
      else if ByteAt(s, i + 2) != '"' { BlockText(s, i + 2, raw + "\\\""); }
      else if ByteAt(s, i + 3) != '"' { BlockText(s, i + 3, raw + "\\\"\""); }
      else { BlockText(s, i + 4, raw + "\"\"\""); }
    } else {
      BlockText(s, i + 1, raw + [s[i]]);
    }
  }

  ghost predicate TextLines(lines: seq<string>) {
    forall i | 0 <= i < |lines| :: RawText(lines[i])
  }

  lemma {:induction false} SplitText(s: string)
    requires RawText(s)
    ensures TextLines(SplitLines(s))
  {
    if s != "" {
      if s[0] == '\r' && |s| > 1 && s[1] == '\n' { SplitText(s[2..]); } else { SplitText(s[1..]); }
    }
  }

  lemma {:induction false} JoinText(lines: seq<string>)
    requires TextLines(lines) && OneLines(lines)
    ensures SourceText(JoinLines(lines))
  {
    if |lines| > 1 { JoinText(lines[1..]); }
  }

  lemma DedentText(lines: seq<string>, n: int)
    requires TextLines(lines)
    ensures TextLines(DedentAll(lines, n))
  {
  }

  /** The value of a block string has no carriage returns. */
  lemma ValueText(raw: string)
    requires RawText(raw)
    ensures SourceText(BlockStringValue(raw))
  {
    var lines := SplitLines(raw);
    SplitText(raw);
    SplitOneLines(raw);
    assert OneLines(lines[1..]) && TextLines(lines[1..]);
    DedentedLines(lines[1..]);
    var rest := DedentAll(lines[1..], CommonIndent(lines[1..]));
    DedentText(lines[1..], CommonIndent(lines[1..]));
    TrimmedText([lines[0]] + rest);
  }

  lemma TrimmedText(lines: seq<string>)
    requires TextLines(lines) && OneLines(lines)
    ensures SourceText(JoinLines(TrimTrailing(TrimLeading(lines))))
  {
    var a, b := Trimmed(lines);
    assert TextLines(lines[a..b]);
    JoinText(lines[a..b]);
  }

  lemma BlockTokenOk(s: string, t: Token, n: nat)
    requires s != "" && s[0] == '"' && LexQuote(s) == Ok((t, n)) && t.kind == BlockString
    ensures TokenOk(t)
  {
    var raw := BlockFrom(s, 3, "").value.0;
    BlockText(s, 3, "");
    ValueText(raw);
    assert t.value == BlockStringValue(raw);
  }

  lemma LexedTokenOk(s: string, t: Token, n: nat)
    requires s != "" && LexToken(s) == Ok((t, n))
    ensures TokenOk(t) && t.kind != EOF
  {
    if IsNameStart(s[0]) {
      NameCharacters(s, 1);
      assert t.kind == Name;
    } else if s[0] == '-' || IsDigit(s[0]) {
      NumberCut(s, t.kind, n);
    } else if s[0] == '"' && t.kind == BlockString {
      BlockTokenOk(s, t, n);
    }
  }

  lemma TokensOkMore(t: Token, ts: seq<Token>)
    requires TokenOk(t) && t.kind != EOF && TokensOk(ts)
    ensures TokensOk([t] + ts)
  {
    assert forall i | 0 < i < |[t] + ts| :: ([t] + ts)[i] == ts[i - 1];
  }

  /** The names, numbers and strings of the lexer are well-formed, and the end comes last. */
  lemma {:induction false} LexedTokensOk(s: string)
    ensures TokensOk(Lex(s))
    decreases |s|
  {
    var t := s[WhitespaceEnd(s, 0)..];
    if t != "" && LexToken(t).Ok? {
      var (token, n) := LexToken(t).value;
      LexedTokenOk(t, token, n);
      LexedTokensOk(t[n..]);
      TokensOkMore(token, Lex(t[n..]));
    }
  }
}
