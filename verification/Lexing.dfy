/** What the lexer (graphql/lexer/lexer.go) makes of a source text, as functions on what is left of it. */
module Lexing {
  import opened Wrappers
  import opened Utf8
  import opened BlockStrings

  datatype Kind =
    | SOF | EOF | Bang | Dollar | Amp | LeftParen | RightParen | Spread | Colon | Equals | At
    | LeftBracket | RightBracket | LeftBrace | Pipe | RightBrace
    | Name | Int | Float | String | BlockString | Comment
    | Bad // stands for a syntax error of the lexer

  datatype Token = Token(kind: Kind, value: string)

  datatype LexError = UnexpectedCharacter | InvalidNumber | InvalidCharacter | InvalidEscape | Unterminated

  /** The byte at `i`, or zero past the end. */
  function ByteAt(s: string, i: nat): char {
    if i < |s| then s[i] else '\0'
  }

  predicate IsDigit(c: char) { '0' <= c <= '9' }

  predicate IsNameStart(c: char) { c == '_' || 'a' <= c <= 'z' || 'A' <= c <= 'Z' }

  predicate IsNameChar(c: char) { IsNameStart(c) || IsDigit(c) }

  predicate IsWhitespace(c: char) { c == '\t' || c == ' ' || c == ',' || c == '\n' || c == '\r' }

  predicate IsCommentChar(c: char) { c as int > 0x1F || c == '\t' }

  /** What stands at `i` are two stretches of text, one behind the other. */
  lemma SplitAt(t: string, i: nat, a: string, b: string)
    requires i + |a + b| <= |t| && t[i..i + |a + b|] == a + b
    ensures t[i..i + |a|] == a && t[i + |a|..i + |a| + |b|] == b
  {
    assert a == t[i..i + |a + b|][..|a|] && b == t[i..i + |a + b|][|a|..];
  }

  // ---------------------------------------------------------------------------------------------
  // Runs of characters
  // ---------------------------------------------------------------------------------------------

  /** The end of the digits from `i` on. */
  function DigitsEnd(s: string, i: nat): (end: nat)
    ensures i <= end && (i <= |s| ==> end <= |s|)
    decreases |s| - i
  {
    if i < |s| && IsDigit(s[i]) then DigitsEnd(s, i + 1) else i
  }

  function NameEnd(s: string, i: nat): (end: nat)
    ensures i <= end && (i <= |s| ==> end <= |s|)
    decreases |s| - i
  {
    if i < |s| && IsNameChar(s[i]) then NameEnd(s, i + 1) else i
  }

  function CommentEnd(s: string, i: nat): (end: nat)
    ensures i <= end && (i <= |s| ==> end <= |s|)
    decreases |s| - i
  {
    if i < |s| && IsCommentChar(s[i]) then CommentEnd(s, i + 1) else i
  }

  function WhitespaceEnd(s: string, i: nat): (end: nat)
    ensures i <= end && (i <= |s| ==> end <= |s|)
    decreases |s| - i
  {
    if i < |s| && IsWhitespace(s[i]) then WhitespaceEnd(s, i + 1) else i
  }

  // ---------------------------------------------------------------------------------------------
  // Numbers
  // ---------------------------------------------------------------------------------------------

  /** IntegerPart of section 2.9.1: the end of it. */
  function IntegerEnd(s: string): (r: Result<nat, LexError>)
    requires s != ""
    ensures r.Ok? && (s[0] == '-' || IsDigit(s[0])) ==> 0 < r.value <= |s|
  {
    var i := if s[0] == '-' then 1 else 0;
    if !IsDigit(ByteAt(s, i)) && s[0] == '-' then Err(InvalidNumber)
    else if ByteAt(s, i) == '0' then if IsDigit(ByteAt(s, i + 1)) then Err(InvalidNumber) else Ok(i + 1)
    else Ok(DigitsEnd(s, i + 1))
  }

  /** The digits that have to follow at `i`. */
  function SomeDigitsEnd(s: string, i: nat): (r: Result<nat, LexError>)
    ensures r.Ok? ==> i < r.value <= |s|
  {
    if IsDigit(ByteAt(s, i)) then Ok(DigitsEnd(s, i + 1)) else Err(InvalidNumber)
  }

  function FractionEnd(s: string, i: nat): (r: Result<nat, LexError>)
    ensures r.Ok? ==> i <= r.value && (i <= |s| ==> r.value <= |s|)
  {
    if ByteAt(s, i) == '.' then SomeDigitsEnd(s, i + 1) else Ok(i)
  }

  predicate HasExponent(s: string, i: nat) {
    ByteAt(s, i) == 'E' || ByteAt(s, i) == 'e'
  }

  function ExponentEnd(s: string, i: nat): (r: Result<nat, LexError>)
    ensures r.Ok? ==> i <= r.value && (i <= |s| ==> r.value <= |s|)
  {
    if HasExponent(s, i) then
      SomeDigitsEnd(s, if ByteAt(s, i + 1) == '+' || ByteAt(s, i + 1) == '-' then i + 2 else i + 1)
    else Ok(i)
  }

  /** The number token that `s` starts with. */
  function LexNumber(s: string): (r: Result<(Token, nat), LexError>)
    requires s != "" && (s[0] == '-' || IsDigit(s[0]))
    ensures r.Ok? ==> 0 < r.value.1 <= |s|
  {
    match IntegerEnd(s)
    case Err(e) => Err(e)
    case Ok(i) =>
      match FractionEnd(s, i)
      case Err(e) => Err(e)
      case Ok(j) =>
        match ExponentEnd(s, j)
        case Err(e) => Err(e)
        case Ok(k) => Ok((Token(if k == i then Int else Float, s[..k]), k))
  }

  // ---------------------------------------------------------------------------------------------
  // Strings
  // ---------------------------------------------------------------------------------------------

  function HexValue(c: char): int {
    if IsDigit(c) then c as int - '0' as int
    else if 'A' <= c <= 'F' then c as int - 55
    else if 'a' <= c <= 'f' then c as int - 87
    else -1
  }

  /** The number that four hexadecimal digits make, or -1. */
  function UniCharCode(a: char, b: char, c: char, d: char): int {
    if HexValue(a) < 0 || HexValue(b) < 0 || HexValue(c) < 0 || HexValue(d) < 0 then -1
    else HexValue(a) * 0x1000 + HexValue(b) * 0x100 + HexValue(c) * 0x10 + HexValue(d)
  }

  /** EscapedCharacter of section 2.9.4. */
  function Unescape(c: char): Option<char> {
    if c == '"' || c == '\\' || c == '/' then Some(c)
    else if c == 'b' then Some(8 as char)
    else if c == 'f' then Some(12 as char)
    else if c == 'n' then Some('\n')
    else if c == 'r' then Some('\r')
    else if c == 't' then Some('\t')
    else None
  }

  /** A string without its opening quote, from `i` on, after `value`: its value, and where it ends. */
  function StringFrom(s: string, i: nat, value: string): (r: Result<(string, nat), LexError>)
    ensures r.Ok? ==> i < r.value.1 <= |s|
    decreases |s| - i
  {
    if i >= |s| || s[i] == '\n' || s[i] == '\r' then Err(Unterminated)
    else if s[i] == '"' then Ok((value, i + 1))
    else if s[i] as int < 0x20 && s[i] != '\t' then Err(InvalidCharacter)
    else if s[i] != '\\' then StringFrom(s, i + 1, value + [s[i]])
    else
      var c := ByteAt(s, i + 1);
      if Unescape(c).Some? then StringFrom(s, i + 2, value + [Unescape(c).value])
      else if c != 'u' || i + 6 > |s| then Err(InvalidEscape)
      else
        var code := UniCharCode(s[i + 2], s[i + 3], s[i + 4], s[i + 5]);
        if code < 0 then Err(InvalidEscape) else StringFrom(s, i + 6, value + EncodeRune(code))
  }

  /** A block string without its opening quotes, from `i` on, after `raw`: its raw value, and where it ends. */
  function BlockFrom(s: string, i: nat, raw: string): (r: Result<(string, nat), LexError>)
    ensures r.Ok? ==> i < r.value.1 <= |s| && raw <= r.value.0
    decreases |s| - i
  {
    if i >= |s| then Err(Unterminated)
    else if s[i] == '"' then
      if ByteAt(s, i + 1) != '"' then BlockFrom(s, i + 1, raw + "\"")
      else if ByteAt(s, i + 2) != '"' then BlockFrom(s, i + 2, raw + "\"\"")
      else Ok((raw, i + 3))
    else if s[i] == '\\' then
      if ByteAt(s, i + 1) != '"' then BlockFrom(s, i + 1, raw + "\\")
      else if ByteAt(s, i + 2) != '"' then BlockFrom(s, i + 2, raw + "\\\"")
      else if ByteAt(s, i + 3) != '"' then BlockFrom(s, i + 3, raw + "\\\"\"")
      else BlockFrom(s, i + 4, raw + "\"\"\"")
    else if s[i] as int < 0x20 && s[i] != '\t' && s[i] != '\r' && s[i] != '\n' then Err(InvalidCharacter)
    else BlockFrom(s, i + 1, raw + [s[i]])
  }

  function LexQuote(s: string): (r: Result<(Token, nat), LexError>)
    requires s != "" && s[0] == '"'
    ensures r.Ok? ==> 0 < r.value.1 <= |s|
  {
    if ByteAt(s, 1) != '"' then
      match StringFrom(s, 1, "")
      case Err(e) => Err(e)
      case Ok((value, end)) => Ok((Token(String, value), end))
    else if ByteAt(s, 2) != '"' then Ok((Token(String, ""), 2))
    else
      match BlockFrom(s, 3, "")
      case Err(e) => Err(e)
      case Ok((raw, end)) => Ok((Token(BlockString, BlockStringValue(raw)), end))
  }

  // ---------------------------------------------------------------------------------------------
  // Tokens
  // ---------------------------------------------------------------------------------------------

  function Punctuator(c: char): Option<Kind> {
    if c == '!' then Some(Bang)
    else if c == '$' then Some(Dollar)
    else if c == '&' then Some(Amp)
    else if c == '(' then Some(LeftParen)
    else if c == ')' then Some(RightParen)
    else if c == ':' then Some(Colon)
    else if c == '=' then Some(Equals)
    else if c == '@' then Some(At)
    else if c == '[' then Some(LeftBracket)
    else if c == ']' then Some(RightBracket)
    else if c == '{' then Some(LeftBrace)
    else if c == '|' then Some(Pipe)
    else if c == '}' then Some(RightBrace)
    else None
  }

  /** The token that `s` starts with, and its size. */
  function LexToken(s: string): (r: Result<(Token, nat), LexError>)
    requires s != ""
    ensures r.Ok? ==> 0 < r.value.1 <= |s|
  {
    var c := s[0];
    if Punctuator(c).Some? then Ok((Token(Punctuator(c).value, ""), 1))
    else if c == '#' then Ok((Token(Comment, ""), CommentEnd(s, 1)))
    else if c == '.' then
      if ByteAt(s, 1) == '.' && ByteAt(s, 2) == '.' then Ok((Token(Spread, ""), 3)) else Err(UnexpectedCharacter)
    else if IsNameStart(c) then Ok((Token(Name, s[..NameEnd(s, 1)]), NameEnd(s, 1)))
    else if c == '-' || IsDigit(c) then LexNumber(s)
    else if c == '"' then LexQuote(s)
    else Err(UnexpectedCharacter)
  }

  const END := Token(EOF, "")

  const ERROR := Token(Bad, "")

  /** The tokens of `s` but the comments, ending in EOF or in an error. */
  function Lex(s: string): (r: seq<Token>)
    ensures r != []
    decreases |s|
  {
    var t := s[WhitespaceEnd(s, 0)..];
    if t == "" then [END]
    else
      match LexToken(t)
      case Err(_) => [ERROR]
      case Ok((token, n)) => if token.kind == Comment then Lex(t[n..]) else [token] + Lex(t[n..])
  }

  const BYTE_ORDER_MARK: string := [0xEF as char, 0xBB as char, 0xBF as char]

  /** The token stream of a source text, from the start-of-file token on. */
  function Tokens(body: string): seq<Token> {
    [Token(SOF, "")] + Lex(if BYTE_ORDER_MARK <= body then body[3..] else body)
  }
}
