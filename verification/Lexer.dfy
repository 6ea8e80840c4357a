/** The lexer (graphql/lexer/lexer.go): it moves over the source text and gives one token after another. */
module Lexers {
  import opened Wrappers
  import opened Utf8
  import opened BlockStrings
  import opened Lexing
  import Parsing

  /** Lexing.Lex as a value, so that callers of the lexer do not look into it. */
  type LexFunction = f: string -> seq<Token> | forall s {:trigger Lex(s)} :: f(s) == Lex(s) witness s => Lex(s)

  function Quotes(s: string, i: nat): nat {
    if ByteAt(s, i) != '"' then 0 else if ByteAt(s, i + 1) != '"' then 1 else if ByteAt(s, i + 2) != '"' then 2 else 3
  }

  /** Reading one token moves the lexer from the text `was` to the text `unread`. */
  ghost predicate ReadFrom(was: string, r: Result<Token, LexError>, unread: string) {
    match r
    case Err(_) => Lex(was) == [ERROR]
    case Ok(t) =>
      && t.kind != Bad
      && (t.kind == EOF ==> Lex(was) == [t])
      && (t.kind == Comment ==> Lex(was) == Lex(unread) && |unread| < |was|)
      && (t.kind != EOF && t.kind != Comment ==> Lex(was) == [t] + Lex(unread))
  }

  /**
   The lexer holds the current token, the next one if that was read already, and the position behind what
   was read. Most methods read from a suffix `s` of the body and are at the index `i` of it.
   */
  class Lexer {
    const body: string
    var bytePos: nat
    var token: Token
    var next: Option<Token>
    ghost const lex: LexFunction

    constructor (body: string)
      ensures Valid() && this.body == body && Stream() == Tokens(body)
    {
      this.body := body;
      bytePos, token, next := 0, Token(SOF, ""), None;
      lex := s => Lex(s);
    }

    ghost predicate Valid()
      reads this
    {
      bytePos <= |body| && (next.Some? ==> next.value.kind != Comment && next.value.kind != Bad)
    }

    /** The text that was not read yet; a byte order mark does not belong to it. */
    ghost function Unread(): string
      requires bytePos <= |body|
      reads this
    {
      if bytePos == 0 && BYTE_ORDER_MARK <= body then body[3..] else body[bytePos..]
    }

    /** The tokens behind the current one. */
    ghost function Ahead(): (r: seq<Token>)
      requires Valid()
      reads this
      ensures token.kind != EOF ==> r != []
    {
      assert lex(Unread()) == Lex(Unread());
      if token.kind == EOF then []
      else if next == None then lex(Unread())
      else if next.value.kind == EOF then [next.value]
      else [next.value] + lex(Unread())
    }

    /** The tokens from the current one on, comments left out. */
    ghost function Stream(): Parsing.Tokens
      requires Valid()
      reads this
    {
      [token] + Ahead()
    }

    ghost predicate At(s: string, i: nat)
      reads this
    {
      i <= |s| <= |body| && body[|body| - |s|..] == s && bytePos == |body| - |s| + i
    }

    /** The outcome is the wanted one, and the lexer is behind the token. */
    ghost predicate Reached(s: string, r: Result<Token, LexError>, want: Result<(Token, nat), LexError>)
      reads this
    {
      bytePos <= |body| &&
      if want.Ok? then r == Ok(want.value.0) && At(s, want.value.1) else r == Err(want.error)
    }

    // -------------------------------------------------------------------------------------------
    // Bytes
    // -------------------------------------------------------------------------------------------

    method Peek(ghost s: string, ghost i: nat) returns (c: char)
      requires At(s, i)
      ensures c == ByteAt(s, i)
    {
      c := ByteAt(body, bytePos);
    }

    /** At the end of the body, consuming does not move. */
    method Consume(ghost s: string, ghost i: nat) returns (c: char)
      requires At(s, i)
      modifies this`bytePos
      ensures c == ByteAt(s, i) && At(s, if i < |s| then i + 1 else i)
    {
      c := ByteAt(body, bytePos);
      if bytePos < |body| { bytePos := bytePos + 1; }
    }

    /** The size of the whitespace character at `pos`, a carriage return going with its newline. */
    method WhitespaceSize(pos: nat) returns (n: nat)
      requires pos < |body|
      ensures pos + n <= |body| && n <= 2 && (forall k | pos <= k < pos + n :: IsWhitespace(body[k]))
      ensures n == 0 ==> !IsWhitespace(body[pos])
    {
      var c := body[pos];
      if c == '\t' || c == ' ' || c == ',' || c == '\n' {
        return 1;
      }
      if c == '\r' {
        return if |body| - pos >= 2 && body[pos + 1] == '\n' then 2 else 1;
      }
      return 0;
    }

    method SkipWhitespace(start: nat) returns (pos: nat)
      requires start <= |body|
      ensures pos <= |body| && pos == start + WhitespaceEnd(body[start..], 0)
    {
      pos := start;
      while pos < |body|
        invariant start <= pos <= |body| && WhitespaceEnd(body[start..], pos - start) == WhitespaceEnd(body[start..], 0)
      {
        var n := WhitespaceSize(pos);
        if n == 0 {
          assert body[start..][pos - start] == body[pos];
          break;
        }
        assert forall k | pos - start <= k < pos - start + n :: body[start..][k] == body[start + k];
        WhitespaceRun(body[start..], pos - start, n);
        pos := pos + n;
      }
    }

    method ConsumeWhitespace()
      requires bytePos <= |body|
      modifies this`bytePos
      ensures bytePos <= |body|
      ensures body[bytePos..] == old(Unread())[WhitespaceEnd(old(Unread()), 0)..]
    {
      var start := bytePos;
      if start == 0 && |body| >= 3 {
        if body[0] == 0xEF as char && body[1] == 0xBB as char && body[2] == 0xBF as char {
          start := 3;
        }
      }
      assert body[start..] == Unread();
      ghost var end := WhitespaceEnd(body[start..], 0);
      bytePos := SkipWhitespace(start);
      SuffixOfSuffix(body, start, end);
    }

    method ConsumeDigits(ghost s: string, ghost i: nat) returns (c: char, ghost j: nat)
      requires At(s, i)
      modifies this`bytePos
      ensures j == DigitsEnd(s, i) && At(s, j) && c == ByteAt(s, j)
    {
      j := i;
      c := Peek(s, j);
      while IsDigit(c)
        invariant At(s, j) && c == ByteAt(s, j) && DigitsEnd(s, j) == DigitsEnd(s, i)
        decreases |s| - j
      {
        var _ := Consume(s, j);
        j := j + 1;
        c := Peek(s, j);
      }
    }

    // -------------------------------------------------------------------------------------------
    // Tokens
    // -------------------------------------------------------------------------------------------

    method LexComment(ghost s: string) returns (token: Token)
      requires At(s, 0) && s != ""
      modifies this`bytePos
      ensures token == Token(Comment, "") && At(s, CommentEnd(s, 1))
    {
      var c := Consume(s, 0);
      ghost var i := 1;
      c := Peek(s, i);
      while IsCommentChar(c)
        invariant At(s, i) && c == ByteAt(s, i) && CommentEnd(s, i) == CommentEnd(s, 1)
        decreases |s| - i
      {
        c := Consume(s, i);
        i := i + 1;
        c := Peek(s, i);
      }
      token := Token(Comment, "");
    }

    method LexName(ghost s: string) returns (token: Token)
      requires At(s, 0) && s != ""
      modifies this`bytePos
      ensures token == Token(Name, s[..NameEnd(s, 1)]) && At(s, NameEnd(s, 1))
    {
      var start := bytePos;
      var c := Consume(s, 0);
      ghost var i := 1;
      c := Peek(s, i);
      while IsNameChar(c)
        invariant At(s, i) && c == ByteAt(s, i) && NameEnd(s, i) == NameEnd(s, 1)
        decreases |s| - i
      {
        c := Consume(s, i);
        i := i + 1;
        c := Peek(s, i);
      }
      token := Token(Name, body[start..bytePos]);
      assert body[start..bytePos] == s[..i];
    }

    /** The sign and the integer part; `c` is the byte behind it. */
    method ConsumeInteger(ghost s: string) returns (c: char, r: Result<(), LexError>, ghost i: nat)
      requires At(s, 0) && s != "" && (s[0] == '-' || IsDigit(s[0]))
      modifies this`bytePos
      ensures bytePos <= |body| && r.Ok? == IntegerEnd(s).Ok? && (r.Err? ==> r.error == IntegerEnd(s).error)
      ensures r.Ok? ==> i == IntegerEnd(s).value && At(s, i) && c == ByteAt(s, i)
    {
      c := Consume(s, 0);
      i := 1;
      if c == '-' {
        c := Peek(s, 1);
        if !IsDigit(c) { return c, Err(InvalidNumber), i; }
        c := Consume(s, 1);
        i := 2;
      }
      if c == '0' {
        c := Peek(s, i);
        if IsDigit(c) { return c, Err(InvalidNumber), i; }
      } else {
        c, i := ConsumeDigits(s, i);
      }
      r := Ok(());
    }

    /** At least one digit; `c` is the byte behind them. */
    method ConsumeSomeDigits(ghost s: string, ghost i: nat) returns (c: char, r: Result<(), LexError>, ghost j: nat)
      requires At(s, i)
      modifies this`bytePos
      ensures bytePos <= |body| && r.Ok? == SomeDigitsEnd(s, i).Ok? && (r.Err? ==> r.error == SomeDigitsEnd(s, i).error)
      ensures r.Ok? ==> j == SomeDigitsEnd(s, i).value && At(s, j) && c == ByteAt(s, j)
    {
      j := i;
      c := Peek(s, i);
      if !IsDigit(c) { return c, Err(InvalidNumber), j; }
      c := Consume(s, i);
      c, j := ConsumeDigits(s, i + 1);
      r := Ok(());
    }

    method ConsumeFraction(ghost s: string, ghost i: nat, c0: char)
      returns (c: char, r: Result<bool, LexError>, ghost j: nat)
      requires At(s, i) && c0 == ByteAt(s, i)
      modifies this`bytePos
      ensures bytePos <= |body| && r.Ok? == FractionEnd(s, i).Ok? && (r.Err? ==> r.error == FractionEnd(s, i).error)
      ensures r.Ok? ==> j == FractionEnd(s, i).value && At(s, j) && c == ByteAt(s, j) && r.value == (j > i)
    {
      c, j := c0, i;
      if c != '.' { return c, Ok(false), j; }
      c := Consume(s, i);
      var ok;
      c, ok, j := ConsumeSomeDigits(s, i + 1);
      r := if ok.Ok? then Ok(true) else Err(ok.error);
    }

    method ConsumeExponent(ghost s: string, ghost i: nat, c0: char) returns (r: Result<bool, LexError>, ghost j: nat)
      requires At(s, i) && c0 == ByteAt(s, i)
      modifies this`bytePos
      ensures bytePos <= |body| && r.Ok? == ExponentEnd(s, i).Ok? && (r.Err? ==> r.error == ExponentEnd(s, i).error)
      ensures r.Ok? ==> j == ExponentEnd(s, i).value && At(s, j) && r.value == (j > i)
    {
      j := i;
      if !(c0 == 'E' || c0 == 'e') { return Ok(false), j; }
      var c := Consume(s, i);
      c := Peek(s, i + 1);
      j := i + 1;
      if c == '+' || c == '-' {
        c := Consume(s, i + 1);
        j := i + 2;
      }
      var ok;
      c, ok, j := ConsumeSomeDigits(s, j);
      r := if ok.Ok? then Ok(true) else Err(ok.error);
    }

    method LexNumber(ghost s: string) returns (r: Result<Token, LexError>)
      requires At(s, 0) && s != "" && (s[0] == '-' || IsDigit(s[0]))
      modifies this`bytePos
      ensures Reached(s, r, Lexing.LexNumber(s))
    {
      var start := bytePos;
      ghost var i: nat;
      ghost var j: nat;
      ghost var k: nat;
      var c, ok, fraction, exponent;
      c, ok, i := ConsumeInteger(s);
      if ok.Err? { return Err(ok.error); }
      c, fraction, j := ConsumeFraction(s, i, c);
      if fraction.Err? { return Err(fraction.error); }
      exponent, k := ConsumeExponent(s, j, c);
      if exponent.Err? { return Err(exponent.error); }
      assert body[start..bytePos] == s[..k];
      r := Ok(Token(if fraction.value || exponent.value then Float else Int, body[start..bytePos]));
    }

    /** The escape behind a backslash at `i`: what it stands for. */
    method ConsumeEscape(ghost s: string, ghost i: nat) returns (r: Result<string, LexError>, ghost j: nat)
      requires At(s, i + 1) && s[i] == '\\'
      modifies this`bytePos
      ensures bytePos <= |body| && (r.Err? ==> forall value :: StringFrom(s, i, value) == Err(r.error))
      ensures r.Ok? ==> i < j && At(s, j) && forall value :: StringFrom(s, i, value) == StringFrom(s, j, value + r.value)
    {
      var c := Consume(s, i + 1);
      j := i + 2;
      if Unescape(c).Some? {
        return Ok([Unescape(c).value]), j;
      }
      if c != 'u' || |body| - bytePos < 4 { return Err(InvalidEscape), j; }
      var c1 := Consume(s, i + 2);
      var c2 := Consume(s, i + 3);
      var c3 := Consume(s, i + 4);
      var c4 := Consume(s, i + 5);
      j := i + 6;
      var code := UniCharCode(c1, c2, c3, c4);
      if code < 0 { return Err(InvalidEscape), j; }
      r := Ok(EncodeRune(code));
    }

    /** Behind the opening quote. */
    method LexString(ghost s: string) returns (r: Result<Token, LexError>)
      requires At(s, 1)
      modifies this`bytePos
      ensures bytePos <= |body| && r.Ok? == StringFrom(s, 1, "").Ok? && (r.Err? ==> r.error == StringFrom(s, 1, "").error)
      ensures r.Ok? ==> r.value == Token(String, StringFrom(s, 1, "").value.0) && At(s, StringFrom(s, 1, "").value.1)
    {
      var value := "";
      ghost var i := 1;
      while bytePos < |body|
        invariant At(s, i) && StringFrom(s, i, value) == StringFrom(s, 1, "")
        decreases |s| - i
      {
        var c := Peek(s, i);
        if c == '\n' || c == '\r' { break; }
        if c == '"' {
          c := Consume(s, i);
          return Ok(Token(String, value));
        }
        if c as int < 0x20 && c != '\t' { return Err(InvalidCharacter); }
        c := Consume(s, i);
        if c != '\\' {
          value := value + [c];
          i := i + 1;
        } else {
          var escape;
          escape, i := ConsumeEscape(s, i);
          if escape.Err? { return Err(escape.error); }
          value := value + escape.value;
        }
      }
      r := Err(Unterminated);
    }

    /** Up to three quotes in a row. */
    method ConsumeQuotes(ghost s: string, ghost i: nat) returns (n: nat)
      requires At(s, i)
      modifies this`bytePos
      ensures n == Quotes(s, i) && At(s, i + n)
    {
      var c := Peek(s, i);
      if c != '"' { return 0; }
      c := Consume(s, i);
      c := Peek(s, i + 1);
      if c != '"' { return 1; }
      c := Consume(s, i + 1);
      c := Peek(s, i + 2);
      if c != '"' { return 2; }
      c := Consume(s, i + 2);
      n := 3;
    }

    /** Behind the opening quotes. */
    method LexBlockString(ghost s: string) returns (r: Result<Token, LexError>)
      requires At(s, 3)
      modifies this`bytePos
      ensures bytePos <= |body| && r.Ok? == BlockFrom(s, 3, "").Ok? && (r.Err? ==> r.error == BlockFrom(s, 3, "").error)
      ensures r.Ok? ==> r.value == Token(BlockString, BlockStringValue(BlockFrom(s, 3, "").value.0))
                        && At(s, BlockFrom(s, 3, "").value.1)
    {
      var raw := "";
      ghost var i := 3;
      while bytePos < |body|
        invariant At(s, i) && BlockFrom(s, i, raw) == BlockFrom(s, 3, "")
        decreases |s| - i
      {
        var c := Peek(s, i);
        if c == '"' {
          var n := ConsumeQuotes(s, i);
          if n == 3 {
            var value := ComputeBlockStringValue(raw);
            return Ok(Token(BlockString, value));
          }
          raw := raw + if n == 2 then "\"\"" else "\"";
          i := i + n;
        } else if c == '\\' {
          c := Consume(s, i);
          var n := ConsumeQuotes(s, i + 1);
          raw := raw + if n == 0 then "\\" else if n == 1 then "\\\"" else if n == 2 then "\\\"\"" else "\"\"\"";
          i := i + 1 + n;
        } else {
          if c as int < 0x20 && c != '\t' && c != '\r' && c != '\n' { return Err(InvalidCharacter); }
          c := Consume(s, i);
          raw := raw + [c];
          i := i + 1;
        }
      }
      r := Err(Unterminated);
    }

    method LexQuoted(ghost s: string) returns (r: Result<Token, LexError>)
      requires At(s, 0) && s != "" && s[0] == '"'
      modifies this`bytePos
      ensures Reached(s, r, LexQuote(s))
    {
      var c := Consume(s, 0);
      c := Peek(s, 1);
      if c == '"' {
        c := Consume(s, 1);
        c := Peek(s, 2);
        if c == '"' {
          c := Consume(s, 2);
          r := LexBlockString(s);
          return;
        }
        return Ok(Token(String, ""));
      }
      r := LexString(s);
    }

    method LexDots(ghost s: string) returns (r: Result<Token, LexError>)
      requires At(s, 0) && s != "" && s[0] == '.'
      modifies this`bytePos
      ensures Reached(s, r, Lexing.LexToken(s))
    {
      var c := Consume(s, 0);
      c := Peek(s, 1);
      if c != '.' { return Err(UnexpectedCharacter); }
      c := Consume(s, 1);
      c := Peek(s, 2);
      if c != '.' { return Err(UnexpectedCharacter); }
      c := Consume(s, 2);
      r := Ok(Token(Spread, ""));
    }

    /** The token at the position, behind the whitespace. */
    method LexHere(ghost s: string) returns (r: Result<Token, LexError>)
      requires At(s, 0) && s != ""
      modifies this`bytePos
      ensures Reached(s, r, Lexing.LexToken(s))
    {
      var c := Peek(s, 0);
      if Punctuator(c).Some? {
        c := Consume(s, 0);
        r := Ok(Token(Punctuator(c).value, ""));
      } else if c == '#' {
        var token := LexComment(s);
        r := Ok(token);
      } else if c == '.' {
        r := LexDots(s);
      } else if IsNameStart(c) {
        var token := LexName(s);
        r := Ok(token);
      } else if c == '-' || IsDigit(c) {
        r := LexNumber(s);
      } else if c == '"' {
        r := LexQuoted(s);
      } else {
        r := Err(UnexpectedCharacter);
      }
    }

    /** Reads one token, which may be a comment. */
    method LexToken() returns (r: Result<Token, LexError>)
      requires bytePos <= |body|
      modifies this`bytePos
      ensures bytePos <= |body| && ReadFrom(old(Unread()), r, Unread())
    {
      ghost var was := Unread();
      ConsumeWhitespace();
      ghost var s := body[bytePos..];
      var c := ByteAt(body, bytePos);
      if c == '\0' && bytePos >= |body| { return Ok(END); }
      r := LexHere(s);
      LexUnfolds(was, s, r, Unread());
    }

    // -------------------------------------------------------------------------------------------
    // The stream
    // -------------------------------------------------------------------------------------------

    /** The next token that is not a comment. A comment in front of it becomes the current token. */
    method Lookahead() returns (r: Result<Token, LexError>)
      requires Valid()
      modifies this
      ensures Valid() && (token == old(token) || token.kind == Comment)
      ensures old(token).kind == EOF ==> r == Ok(old(token)) && token == old(token)
      ensures old(token).kind != EOF && r.Err? ==> old(Ahead()) == [ERROR]
      ensures old(token).kind != EOF && r.Ok? ==> token.kind != EOF && next == Some(r.value) && Ahead() == old(Ahead())
    {
      if token.kind == EOF { return Ok(token); }
      while next == None
        invariant Valid() && token.kind != EOF && (token == old(token) || token.kind == Comment)
        invariant Ahead() == old(Ahead())
        decreases next == None, |Unread()|
      {
        ghost var was := Unread();
        r := LexToken();
        assert lex(was) == Lex(was) && lex(Unread()) == Lex(Unread());
        if r.Err? { return; }
        if r.value.kind == Comment {
          token := r.value;
        } else {
          next := Some(r.value);
        }
      }
      r := Ok(next.value);
    }

    /** The next token that is not a comment becomes the current one. */
    method Advance() returns (r: Result<Token, Parsing.SyntaxError>)
      requires Valid()
      modifies this
      ensures Valid()
      ensures r.Ok? == Parsing.Advance(old(Stream())).Ok?
      ensures r.Ok? ==> r.value == token && Stream() == Parsing.Advance(old(Stream())).value
    {
      var ahead := Lookahead();
      if ahead.Err? { return Err(Parsing.SyntaxError); }
      if token.kind != EOF {
        token, next := ahead.value, None;
      }
      r := Ok(token);
    }
  }

  lemma SuffixOfSuffix(s: string, i: nat, j: nat)
    requires i + j <= |s|
    ensures s[i + j..] == s[i..][j..]
  {
  }

  lemma {:induction false} WhitespaceRun(s: string, i: nat, n: nat)
    requires i + n <= |s| && forall k | i <= k < i + n :: IsWhitespace(s[k])
    ensures WhitespaceEnd(s, i) == WhitespaceEnd(s, i + n)
    decreases n
  {
    if n > 0 { WhitespaceRun(s, i + 1, n - 1); }
  }

  lemma LexUnfolds(was: string, s: string, r: Result<Token, LexError>, unread: string)
    requires s == was[WhitespaceEnd(was, 0)..] && s != ""
    requires match Lexing.LexToken(s) case Ok((t, n)) => r == Ok(t) && unread == s[n..] case Err(e) => r == Err(e)
    ensures ReadFrom(was, r, unread)
  {
  }
}
