/** Lexing the printed form of a syntax tree gives its tokens, exactly if all its strings are printable. */
module PrintedTokens {
  import opened Wrappers
  import opened Utf8
  import opened Ast
  import opened JsonStream
  import opened Lexing
  import opened BlockStringRoundTrip
  import opened StringRoundTrip
  import opened Grammar
  import opened WellFormed

  // ---------------------------------------------------------------------------------------------
  // Single tokens
  // ---------------------------------------------------------------------------------------------

  lemma {:induction false} WhitespaceShift(c: char, rest: string, i: nat)
    ensures WhitespaceEnd([c] + rest, i + 1) == WhitespaceEnd(rest, i) + 1
    decreases |rest| - i
  {
    if i < |rest| && IsWhitespace(rest[i]) {
      WhitespaceShift(c, rest, i + 1);
    }
  }

  lemma {:induction false} LexWhitespace(w: string, rest: string)
    requires forall i | 0 <= i < |w| :: IsWhitespace(w[i])
    ensures Lex(w + rest) == Lex(rest)
  {
    if w == "" {
      assert w + rest == rest;
    } else {
      assert w + rest == [w[0]] + (w[1..] + rest);
      SkipOne(w[0], w[1..] + rest);
      LexWhitespace(w[1..], rest);
    }
  }

  lemma SkipOne(c: char, rest: string)
    requires IsWhitespace(c)
    ensures Lex([c] + rest) == Lex(rest)
  {
    WhitespaceShift(c, rest, 0);
    var n := WhitespaceEnd(rest, 0);
    assert ([c] + rest)[n + 1..] == rest[n..];
    SameTail([c] + rest, rest);
  }

  lemma SameTail(s: string, s': string)
    requires s[WhitespaceEnd(s, 0)..] == s'[WhitespaceEnd(s', 0)..]
    ensures Lex(s) == Lex(s')
  {
  }

  /** A token that is no comment, at the start of the text. */
  lemma LexStep(s: string, token: Token, n: nat)
    requires s != "" && !IsWhitespace(s[0]) && LexToken(s) == Ok((token, n)) && token.kind != Comment
    ensures n <= |s| && Lex(s) == [token] + Lex(s[n..])
  {
    assert WhitespaceEnd(s, 0) == 0 && s[0..] == s;
  }

  lemma LexPunctuator(c: char, rest: string)
    requires Punctuator(c).Some?
    ensures Lex([c] + rest) == [Punct(Punctuator(c).value)] + Lex(rest)
  {
    var s := [c] + rest;
    LexStep(s, Punct(Punctuator(c).value), 1);
    assert s[1..] == rest;
  }

  lemma LexSpread(rest: string)
    ensures Lex("..." + rest) == [Punct(Spread)] + Lex(rest)
  {
    var s := "..." + rest;
    assert s[0] == '.' && s[1] == '.' && s[2] == '.';
    LexStep(s, Punct(Spread), 3);
    assert s[3..] == rest;
  }

  lemma {:induction false} NameEndsAt(s: string, i: nat, n: nat)
    requires i <= n <= |s| && (forall k | i <= k < n :: IsNameChar(s[k])) && (n == |s| || !IsNameChar(s[n]))
    ensures NameEnd(s, i) == n
    decreases n - i
  {
    if i < n {
      NameEndsAt(s, i + 1, n);
    }
  }

  lemma LexName(name: string, rest: string)
    requires IsName(name) && Closes(rest)
    ensures Lex(name + rest) == [NameToken(name)] + Lex(rest)
  {
    var s := name + rest;
    assert s[0] == name[0];
    NameEndsAt(s, 1, |name|);
    assert s[..|name|] == name && s[|name|..] == rest;
    LexStep(s, NameToken(name), |name|);
  }

  lemma {:induction false} DigitsShift(s: string, rest: string, i: nat)
    requires i <= |s| && Closes(rest)
    ensures DigitsEnd(s + rest, i) == DigitsEnd(s, i)
    decreases |s| - i
  {
    var t := s + rest;
    if i < |s| {
      assert t[i] == s[i];
      DigitsShift(s, rest, i + 1);
    } else if rest != "" {
      assert t[i] == rest[0];
    }
  }

  lemma NumberShift(s: string, rest: string)
    requires s != "" && (s[0] == '-' || IsDigit(s[0])) && Closes(rest)
    ensures IntegerEnd(s + rest) == IntegerEnd(s)
    ensures forall i | 0 <= i <= |s| :: SomeDigitsEnd(s + rest, i) == SomeDigitsEnd(s, i)
  {
    var t := s + rest;
    forall i | 0 <= i <= |s| ensures IsDigit(ByteAt(t, i)) == IsDigit(ByteAt(s, i)) {
      if i == |s| && rest != "" { assert t[i] == rest[0]; }
    }
    forall i | 0 <= i <= |s| ensures SomeDigitsEnd(t, i) == SomeDigitsEnd(s, i) {
      if i < |s| { DigitsShift(s, rest, i + 1); }
    }
    DigitsShift(s, rest, 1);
    if |s| > 1 { DigitsShift(s, rest, 2); }
  }

  lemma FractionShift(s: string, rest: string, i: nat)
    requires s != "" && (s[0] == '-' || IsDigit(s[0])) && Closes(rest) && i <= |s|
    ensures FractionEnd(s + rest, i) == FractionEnd(s, i)
    ensures ExponentEnd(s + rest, i) == ExponentEnd(s, i)
  {
    var t := s + rest;
    NumberShift(s, rest);
    if i < |s| {
      assert t[i] == s[i];
      if i + 1 == |s| {
        assert ByteAt(t, i + 1) == ByteAt(rest, 0);
      } else {
        assert t[i + 1] == s[i + 1];
      }
    } else {
      assert ByteAt(t, i) == ByteAt(rest, 0);
    }
  }

  lemma LexNumberToken(kind: Kind, text: string, rest: string)
    requires IsNumber(kind, text) && Closes(rest) && kind != Comment
    ensures Lex(text + rest) == [Token(kind, text)] + Lex(rest)
  {
    var s := text + rest;
    assert s[0] == text[0];
    NumberShift(text, rest);
    var i := IntegerEnd(text).value;
    FractionShift(text, rest, i);
    var j := FractionEnd(text, i).value;
    FractionShift(text, rest, j);
    assert s[..|text|] == text[..|text|] == text && s[|text|..] == rest;
    LexStep(s, Token(kind, text), |text|);
  }

  /** A text that starts with a quote and lexes as one token. */
  lemma LexText(text: string, rest: string, token: Token)
    requires text != "" && text[0] == '"' && LexToken(text + rest) == Ok((token, |text|)) && token.kind != Comment
    ensures Lex(text + rest) == [token] + Lex(rest)
  {
    var s := text + rest;
    assert s[0] == text[0] && s[|text|..] == rest;
    LexStep(s, token, |text|);
  }

  lemma LexQuotedString(value: string, rest: string)
    requires Closes(rest)
    ensures Lex(Quoted(value) + rest) == [Token(String, Sanitized(value))] + Lex(rest)
    ensures Sanitized(value) == value <==> Valid(value)
  {
    QuotedLexes(value, rest);
    LexQuoteText(Quoted(value), rest, Token(String, Sanitized(value)));
  }

  lemma LexBlockString(value: string, level: nat, rest: string)
    requires IsStringValue(value, true) && Printable(Token(BlockString, value))
    ensures Lex(PrintBlock(value, level) + rest) == [Token(BlockString, value)] + Lex(rest)
  {
    BlockStringsRoundTrip(value, level, rest);
    BlockStarts(value, level);
    LexQuoteText(PrintBlock(value, level), rest, Token(BlockString, value));
  }

  lemma LexQuoteText(text: string, rest: string, token: Token)
    requires text != "" && text[0] == '"' && token.kind != Comment
    requires (text + rest)[0] == '"' && LexQuote(text + rest) == Ok((token, |text|))
    ensures Lex(text + rest) == [token] + Lex(rest)
  {
    LexText(text, rest, token);
  }

  lemma BlockStarts(value: string, level: nat)
    ensures |PrintBlock(value, level)| > 0 && PrintBlock(value, level)[0] == '"'
  {
  }

  /** A block string that is not printable is not read back, whatever follows. */
  lemma LexBrokenBlock(value: string, level: nat, rest: string, ts: seq<Token>)
    requires IsStringValue(value, true) && !Printable(Token(BlockString, value))
    ensures Lex(PrintBlock(value, level) + rest) != [Token(BlockString, value)] + ts
  {
    var t := PrintBlock(value, level) + rest;
    BlockValueIsOneLine(value);
    BackslashBreaks(value, level, rest);
    BlockStarts(value, level);
    assert t[0] == '"';
    FirstToken(t);
  }

  /** A value without newlines has no line breaks at all. */
  lemma BlockValueIsOneLine(value: string)
    requires IsBlockValue(value) && SingleLine(value)
    ensures OneLine(value)
  {
    BlockValuesExactly(value);
    SingleLineValue(value);
  }

  /** What the lexer makes of a text that starts with a quote comes first, or an error does. */
  lemma FirstToken(t: string)
    requires t != "" && t[0] == '"'
    ensures Lex(t)[0] == if LexQuote(t).Ok? then LexQuote(t).value.0 else ERROR
  {
    assert WhitespaceEnd(t, 0) == 0 && t[0..] == t;
  }

  // ---------------------------------------------------------------------------------------------
  // What the syntax tree needs to know of the lexer
  // ---------------------------------------------------------------------------------------------

  /** How a text relates to tokens. */
  type Relation = (string, seq<Token>) -> bool

  predicate AllWhitespace(w: string) {
    forall i | 0 <= i < |w| :: IsWhitespace(w[i])
  }

  /** Marks the places where a law is used, so that none is tried elsewhere. */
  predicate Front(first: string, rest: string, ts: seq<Token>) { true }

  /** What is related stays related when whitespace, or a token and its text, are put in front. */
  ghost predicate Laws(rel: Relation) {
    && (forall w, rest, ts {:trigger Front(w, rest, ts)} :: AllWhitespace(w) && rel(rest, ts) ==> rel(w + rest, ts))
    && (forall c: char, rest, ts {:trigger Front([c], rest, ts)} ::
          Punctuator(c).Some? && rel(rest, ts) ==> rel([c] + rest, [Punct(Punctuator(c).value)] + ts))
    && (forall rest, ts {:trigger Front("...", rest, ts)} :: rel(rest, ts) ==> rel("..." + rest, [Punct(Spread)] + ts))
    && (forall name, rest, ts {:trigger Front(name, rest, ts)} ::
          IsName(name) && Closes(rest) && rel(rest, ts) ==> rel(name + rest, [NameToken(name)] + ts))
    && (forall kind, text, rest, ts {:trigger Front(text, rest, ts), IsNumber(kind, text)} ::
          IsNumber(kind, text) && IsNumeric(kind) && Closes(rest) && rel(rest, ts) ==> rel(text + rest, [Token(kind, text)] + ts))
    && (forall value, rest, ts {:trigger Front(Quoted(value), rest, ts)} ::
          Closes(rest) && rel(rest, ts) ==> rel(Quoted(value) + rest, [Token(String, value)] + ts))
    && (forall value, level, rest, ts {:trigger Front(PrintBlock(value, level), rest, ts)} ::
          IsStringValue(value, true) && rel(rest, ts) ==> rel(PrintBlock(value, level) + rest, [Token(BlockString, value)] + ts))
  }

  predicate IsNumeric(kind: Kind) { kind == Int || kind == Float }

  /** The text lexes to the tokens exactly if these are printable. */
  predicate LexesExactly(s: string, ts: seq<Token>) {
    Lex(s) == ts <==> AllPrintable(ts)
  }

  /** A token that is read back, in front of more. */
  lemma ExactlyMore(s: string, token: Token, rest: string, ts: seq<Token>)
    requires Lex(s) == [token] + Lex(rest) && Printable(token) && LexesExactly(rest, ts)
    ensures LexesExactly(s, [token] + ts)
  {
    PrintableMore(token, ts);
    TokensInject(token, Lex(rest), token, ts);
  }

  lemma TokensInject(t: Token, ts: seq<Token>, u: Token, us: seq<Token>)
    ensures [t] + ts == [u] + us <==> t == u && ts == us
  {
    assert ([t] + ts)[0] == t && ([t] + ts)[1..] == ts && ([u] + us)[0] == u && ([u] + us)[1..] == us;
  }

  lemma QuotedExactly(value: string, rest: string, ts: seq<Token>)
    requires Closes(rest) && LexesExactly(rest, ts)
    ensures LexesExactly(Quoted(value) + rest, [Token(String, value)] + ts)
  {
    LexQuotedString(value, rest);
    PrintableMore(Token(String, value), ts);
    TokensInject(Token(String, Sanitized(value)), Lex(rest), Token(String, value), ts);
  }

  lemma BlockExactly(value: string, level: nat, rest: string, ts: seq<Token>)
    requires IsStringValue(value, true) && LexesExactly(rest, ts)
    ensures LexesExactly(PrintBlock(value, level) + rest, [Token(BlockString, value)] + ts)
  {
    var token := Token(BlockString, value);
    if Printable(token) {
      LexBlockString(value, level, rest);
      ExactlyMore(PrintBlock(value, level) + rest, token, rest, ts);
    } else {
      PrintableMore(token, ts);
      LexBrokenBlock(value, level, rest, ts);
    }
  }

  lemma LexIsLawful()
    ensures Laws((s, ts) => LexesExactly(s, ts))
  {
    forall w, rest, ts | AllWhitespace(w) && LexesExactly(rest, ts) ensures LexesExactly(w + rest, ts) {
      LexWhitespace(w, rest);
    }
    forall c: char, rest, ts | Punctuator(c).Some? && LexesExactly(rest, ts)
      ensures LexesExactly([c] + rest, [Punct(Punctuator(c).value)] + ts)
    {
      LexPunctuator(c, rest);
      ExactlyMore([c] + rest, Punct(Punctuator(c).value), rest, ts);
    }
    forall rest, ts | LexesExactly(rest, ts) ensures LexesExactly("..." + rest, [Punct(Spread)] + ts) {
      LexSpread(rest);
      ExactlyMore("..." + rest, Punct(Spread), rest, ts);
    }
    forall name, rest, ts | IsName(name) && Closes(rest) && LexesExactly(rest, ts)
      ensures LexesExactly(name + rest, [NameToken(name)] + ts)
    {
      LexName(name, rest);
      ExactlyMore(name + rest, NameToken(name), rest, ts);
    }
    forall kind, text, rest, ts | IsNumber(kind, text) && IsNumeric(kind) && Closes(rest) && LexesExactly(rest, ts)
      ensures LexesExactly(text + rest, [Token(kind, text)] + ts)
    {
      LexNumberToken(kind, text, rest);
      ExactlyMore(text + rest, Token(kind, text), rest, ts);
    }
    forall value, rest, ts | Closes(rest) && LexesExactly(rest, ts)
      ensures LexesExactly(Quoted(value) + rest, [Token(String, value)] + ts)
    {
      QuotedExactly(value, rest, ts);
    }
    forall value, level, rest, ts | IsStringValue(value, true) && LexesExactly(rest, ts)
      ensures LexesExactly(PrintBlock(value, level) + rest, [Token(BlockString, value)] + ts)
    {
      BlockExactly(value, level, rest, ts);
    }
  }

  lemma LawPunctuator(rel: Relation, c: char, rest: string, ts: seq<Token>)
    requires Laws(rel) && Punctuator(c).Some? && rel(rest, ts)
    ensures rel([c] + rest, [Punct(Punctuator(c).value)] + ts)
  {
    assert Front([c], rest, ts);
  }

  lemma LawName(rel: Relation, name: string, rest: string, ts: seq<Token>)
    requires Laws(rel) && IsName(name) && Closes(rest) && rel(rest, ts)
    ensures rel(name + rest, [NameToken(name)] + ts)
  {
    assert Front(name, rest, ts);
  }

  lemma LawNumberToken(rel: Relation, kind: Kind, text: string, rest: string, ts: seq<Token>)
    requires Laws(rel) && IsNumber(kind, text) && IsNumeric(kind) && Closes(rest) && rel(rest, ts)
    ensures rel(text + rest, [Token(kind, text)] + ts)
  {
    assert Front(text, rest, ts);
  }

  lemma LawString(rel: Relation, value: string, block: bool, level: nat, rest: string, ts: seq<Token>)
    requires Laws(rel) && IsStringValue(value, block) && Closes(rest) && rel(rest, ts)
    ensures rel((if block then PrintBlock(value, level) else Quoted(value)) + rest,
                [Token(if block then BlockString else String, value)] + ts)
  {
    assert Front(if block then PrintBlock(value, level) else Quoted(value), rest, ts);
  }

  lemma LawSpread(rel: Relation, rest: string, ts: seq<Token>)
    requires Laws(rel) && rel(rest, ts)
    ensures rel("..." + rest, [Punct(Spread)] + ts)
  {
    assert Front("...", rest, ts);
  }

  // ---------------------------------------------------------------------------------------------
  // Separators
  // ---------------------------------------------------------------------------------------------

  lemma LexComma(rel: Relation, rest: string, ts: seq<Token>)
    requires Laws(rel) && rel(rest, ts)
    ensures rel(", " + rest, ts)
  {
    assert AllWhitespace(", ") && Front(", ", rest, ts);
  }

  lemma LexSpace(rel: Relation, rest: string, ts: seq<Token>)
    requires Laws(rel) && rel(rest, ts)
    ensures rel(" " + rest, ts)
  {
    assert AllWhitespace(" ") && Front(" ", rest, ts);
  }

  lemma LexColon(rel: Relation, rest: string, ts: seq<Token>)
    requires Laws(rel) && rel(rest, ts)
    ensures rel(": " + rest, [Punct(Colon)] + ts)
  {
    LexSpace(rel, rest, ts);
    LawPunctuator(rel, ':', " " + rest, ts);
    assert ": " + rest == [':'] + (" " + rest);
  }

  lemma LexNameColon(rel: Relation, name: string, rest: string, ts: seq<Token>)
    requires Laws(rel) && IsName(name) && rel(rest, ts)
    ensures rel(name + (": " + rest), [NameToken(name), Punct(Colon)] + ts)
  {
    LexColon(rel, rest, ts);
    LawName(rel, name, ": " + rest, [Punct(Colon)] + ts);
    assert [NameToken(name)] + ([Punct(Colon)] + ts) == [NameToken(name), Punct(Colon)] + ts;
  }

  // ---------------------------------------------------------------------------------------------
  // Values
  // ---------------------------------------------------------------------------------------------

  lemma LexVariable(rel: Relation, name: string, rest: string, ts: seq<Token>)
    requires Laws(rel) && IsName(name) && Closes(rest) && rel(rest, ts)
    ensures rel("$" + (name + rest), [Punct(Dollar), NameToken(name)] + ts)
  {
    LawName(rel, name, rest, ts);
    LawPunctuator(rel, '$', name + rest, [NameToken(name)] + ts);
    assert [Punct(Dollar)] + ([NameToken(name)] + ts) == [Punct(Dollar), NameToken(name)] + ts;
  }

  lemma {:induction false} LexValue(rel: Relation, v: Value, isConst: bool, level: nat, rest: string, ts: seq<Token>)
    requires Laws(rel) && ValueOk(v, isConst) && Closes(rest) && rel(rest, ts)
    ensures rel(PrintValue(v, level, rest), TokensValue(v, ts))
    decreases v
  {
    match v
    case Variable(name) => LexVariable(rel, name, rest, ts);
    case IntValue(text) => LawNumberToken(rel, Int, text, rest, ts);
    case FloatValue(text) => LawNumberToken(rel, Float, text, rest, ts);
    case StringValue(s, block) => LawString(rel, s, block, level, rest, ts);
    case BooleanValue(b) => LawName(rel, if b then "true" else "false", rest, ts);
    case NullValue => LawName(rel, "null", rest, ts);
    case EnumValue(name) => LawName(rel, name, rest, ts);
    case ListValue(values) => LexListValue(rel, v, isConst, level, rest, ts);
    case ObjectValue(fields) => LexObjectValue(rel, v, isConst, level, rest, ts);
  }

  lemma {:induction false} LexListValue(rel: Relation, v: Value, isConst: bool, level: nat, rest: string, ts: seq<Token>)
    requires Laws(rel) && v.ListValue? && ValueOk(v, isConst) && Closes(rest) && rel(rest, ts)
    ensures rel(PrintValue(v, level, rest), TokensValue(v, ts))
    decreases v, 0
  {
    var values := v.values;
    var end, close := "]" + rest, [Punct(RightBracket)] + ts;
    LawPunctuator(rel, ']', rest, ts);
    if values == [] {
      LawPunctuator(rel, '[', end, close);
    } else {
      var more := PrintMoreValues(values[1..], level, end);
      assert values[0] in values;
      LexMoreValues(rel, values[1..], isConst, level, end, close);
      LexValue(rel, values[0], isConst, level, more, TokensValues(values[1..], close));
      LawPunctuator(rel, '[', PrintValue(values[0], level, more), TokensValues(values, close));
    }
  }

  lemma {:induction false} LexMoreValues(rel: Relation, values: seq<Value>, isConst: bool, level: nat, rest: string, ts: seq<Token>)
    requires Laws(rel) && (forall x | x in values :: ValueOk(x, isConst)) && Closes(rest) && rel(rest, ts)
    ensures rel(PrintMoreValues(values, level, rest), TokensValues(values, ts))
    decreases values
  {
    if values != [] {
      var more := PrintMoreValues(values[1..], level, rest);
      LexMoreValues(rel, values[1..], isConst, level, rest, ts);
      LexValue(rel, values[0], isConst, level, more, TokensValues(values[1..], ts));
      LexComma(rel, PrintValue(values[0], level, more), TokensValues(values, ts));
    }
  }

  lemma {:induction false} LexObjectValue(rel: Relation, v: Value, isConst: bool, level: nat, rest: string, ts: seq<Token>)
    requires Laws(rel) && v.ObjectValue? && ValueOk(v, isConst) && Closes(rest) && rel(rest, ts)
    ensures rel(PrintValue(v, level, rest), TokensValue(v, ts))
    decreases v, 0
  {
    var fields := v.fields;
    var end, close := "}" + rest, [Punct(RightBrace)] + ts;
    LawPunctuator(rel, '}', rest, ts);
    if fields == [] {
      LawPunctuator(rel, '{', end, close);
    } else {
      var more := PrintMoreFields(fields[1..], level, end);
      assert fields[0] in fields;
      LexMoreFields(rel, fields[1..], isConst, level, end, close);
      LexField(rel, fields[0], isConst, level, more, TokensFields(fields[1..], close));
      LawPunctuator(rel, '{', PrintObjectField(fields[0], level, more), TokensFields(fields, close));
    }
  }

  lemma {:induction false} LexField(rel: Relation, f: ObjectField, isConst: bool, level: nat, rest: string, ts: seq<Token>)
    requires Laws(rel) && IsName(f.name) && ValueOk(f.value, isConst) && Closes(rest) && rel(rest, ts)
    ensures rel(PrintObjectField(f, level, rest), TokensField(f, ts))
    decreases f
  {
    LexValue(rel, f.value, isConst, level, rest, ts);
    LexNameColon(rel, f.name, PrintValue(f.value, level, rest), TokensValue(f.value, ts));
  }

  lemma {:induction false} LexMoreFields(rel: Relation, fields: seq<ObjectField>, isConst: bool, level: nat, rest: string, ts: seq<Token>)
    requires Laws(rel) && (forall f | f in fields :: IsName(f.name) && ValueOk(f.value, isConst)) && Closes(rest) && rel(rest, ts)
    ensures rel(PrintMoreFields(fields, level, rest), TokensFields(fields, ts))
    decreases fields
  {
    if fields != [] {
      var more := PrintMoreFields(fields[1..], level, rest);
      LexMoreFields(rel, fields[1..], isConst, level, rest, ts);
      LexField(rel, fields[0], isConst, level, more, TokensFields(fields[1..], ts));
      LexComma(rel, PrintObjectField(fields[0], level, more), TokensFields(fields, ts));
    }
  }

  // ---------------------------------------------------------------------------------------------
  // Types, arguments, directives
  // ---------------------------------------------------------------------------------------------

  lemma {:induction false} LexType(rel: Relation, t: Type, rest: string, ts: seq<Token>)
    requires Laws(rel) && TypeOk(t) && Closes(rest) && rel(rest, ts)
    ensures rel(PrintType(t, rest), TokensType(t, ts))
  {
    match t
    case NamedType(name) => LawName(rel, name, rest, ts);
    case ListType(item) =>
      var end, close := "]" + rest, [Punct(RightBracket)] + ts;
      LawPunctuator(rel, ']', rest, ts);
      LexType(rel, item, end, close);
      LawPunctuator(rel, '[', PrintType(item, end), TokensType(item, close));
    case NonNullType(inner) =>
      LawPunctuator(rel, '!', rest, ts);
      LexType(rel, inner, "!" + rest, [Punct(Bang)] + ts);
  }

  lemma LexArgument(rel: Relation, a: Argument, isConst: bool, level: nat, rest: string, ts: seq<Token>)
    requires Laws(rel) && IsName(a.name) && ValueOk(a.value, isConst) && Closes(rest) && rel(rest, ts)
    ensures rel(PrintArgument(a, level, rest), TokensArgument(a, ts))
  {
    LexValue(rel, a.value, isConst, level, rest, ts);
    LexNameColon(rel, a.name, PrintValue(a.value, level, rest), TokensValue(a.value, ts));
  }

  lemma {:induction false} LexMoreArguments(rel: Relation, args: seq<Argument>, isConst: bool, level: nat, rest: string, ts: seq<Token>)
    requires Laws(rel) && ArgumentsOk(args, isConst) && Closes(rest) && rel(rest, ts)
    ensures rel(PrintMoreArguments(args, level, rest), TokensArgumentList(args, ts))
  {
    if args != [] {
      var more := PrintMoreArguments(args[1..], level, rest);
      LexMoreArguments(rel, args[1..], isConst, level, rest, ts);
      LexArgument(rel, args[0], isConst, level, more, TokensArgumentList(args[1..], ts));
      LexComma(rel, PrintArgument(args[0], level, more), TokensArgumentList(args, ts));
    }
  }

  lemma LexArguments(rel: Relation, args: seq<Argument>, isConst: bool, level: nat, rest: string, ts: seq<Token>)
    requires Laws(rel) && ArgumentsOk(args, isConst) && Closes(rest) && rel(rest, ts)
    ensures rel(PrintArguments(args, level, rest), TokensArguments(args, ts))
  {
    if args != [] {
      var end, close := ")" + rest, [Punct(RightParen)] + ts;
      var more := PrintMoreArguments(args[1..], level, end);
      assert args[0] in args;
      LawPunctuator(rel, ')', rest, ts);
      LexMoreArguments(rel, args[1..], isConst, level, end, close);
      LexArgument(rel, args[0], isConst, level, more, TokensArgumentList(args[1..], close));
      LawPunctuator(rel, '(', PrintArgument(args[0], level, more), TokensArgumentList(args, close));
    }
  }

  lemma LexAt(rel: Relation, name: string, rest: string, ts: seq<Token>)
    requires Laws(rel) && IsName(name) && Closes(rest) && rel(rest, ts)
    ensures rel("@" + (name + rest), [Punct(At), NameToken(name)] + ts)
  {
    LawName(rel, name, rest, ts);
    LawPunctuator(rel, '@', name + rest, [NameToken(name)] + ts);
    assert [Punct(At)] + ([NameToken(name)] + ts) == [Punct(At), NameToken(name)] + ts;
  }

  lemma LexDirective(rel: Relation, d: Directive, isConst: bool, level: nat, rest: string, ts: seq<Token>)
    requires Laws(rel) && IsName(d.name) && ArgumentsOk(d.arguments, isConst) && Closes(rest) && rel(rest, ts)
    ensures rel(PrintDirective(d, level, rest), TokensDirective(d, ts))
  {
    LexArguments(rel, d.arguments, isConst, level, rest, ts);
    LexAt(rel, d.name, PrintArguments(d.arguments, level, rest), TokensArguments(d.arguments, ts));
  }

  lemma {:induction false} LexDirectives(rel: Relation, ds: seq<Directive>, isConst: bool, level: nat, rest: string, ts: seq<Token>)
    requires Laws(rel) && DirectivesOk(ds, isConst) && Closes(rest) && rel(rest, ts)
    ensures rel(PrintMoreDirectives(ds, level, rest), TokensDirectives(ds, ts))
  {
    if ds != [] {
      var more := PrintMoreDirectives(ds[1..], level, rest);
      assert ds[0] in ds;
      LexDirectives(rel, ds[1..], isConst, level, rest, ts);
      LexDirective(rel, ds[0], isConst, level, more, TokensDirectives(ds[1..], ts));
      LexSpace(rel, PrintDirective(ds[0], level, more), TokensDirectives(ds, ts));
    }
  }

  // ---------------------------------------------------------------------------------------------
  // Selections
  // ---------------------------------------------------------------------------------------------

  lemma LexNewline(rel: Relation, level: nat, rest: string, ts: seq<Token>)
    requires Laws(rel) && rel(rest, ts)
    ensures rel(Newline(level) + rest, ts)
  {
    assert AllWhitespace(Newline(level)) && Front(Newline(level), rest, ts);
  }

  lemma LexOn(rel: Relation, name: string, rest: string, ts: seq<Token>)
    requires Laws(rel) && IsName(name) && Closes(rest) && rel(rest, ts)
    ensures rel(" on " + (name + rest), [NameToken("on"), NameToken(name)] + ts)
  {
    var more := name + rest;
    LawName(rel, name, rest, ts);
    LexSpace(rel, more, [NameToken(name)] + ts);
    LawName(rel, "on", " " + more, [NameToken(name)] + ts);
    LexSpace(rel, "on" + (" " + more), [NameToken("on")] + ([NameToken(name)] + ts));
    assert " on " + more == " " + ("on" + (" " + more));
    assert [NameToken("on")] + ([NameToken(name)] + ts) == [NameToken("on"), NameToken(name)] + ts;
  }

  /** The end of a selection set, and its beginning. */
  lemma LexClose(rel: Relation, level: nat, rest: string, ts: seq<Token>)
    requires Laws(rel) && rel(rest, ts)
    ensures rel(Newline(level) + ("}" + rest), [Punct(RightBrace)] + ts)
  {
    LawPunctuator(rel, '}', rest, ts);
    LexNewline(rel, level, "}" + rest, [Punct(RightBrace)] + ts);
  }

  lemma LexOpen(rel: Relation, level: nat, body: string, ts: seq<Token>)
    requires Laws(rel) && rel(body, ts)
    ensures rel("{" + (Newline(level) + body), [Punct(LeftBrace)] + ts)
  {
    LexNewline(rel, level, body, ts);
    LawPunctuator(rel, '{', Newline(level) + body, ts);
  }

  lemma {:induction false} LexSelectionSet(rel: Relation, selections: seq<Selection>, level: nat, rest: string, ts: seq<Token>)
    requires Laws(rel) && SelectionsOk(selections) && Closes(rest) && rel(rest, ts)
    ensures rel(PrintSelectionSet(selections, level, rest), TokensSelectionSet(selections, ts))
    decreases selections, 1
  {
    if selections != [] {
      var end, close := Newline(level) + ("}" + rest), [Punct(RightBrace)] + ts;
      var more := PrintMoreSelections(selections[1..], level + 1, end);
      assert selections[0] in selections;
      LexClose(rel, level, rest, ts);
      LexMoreSelections(rel, selections[1..], level + 1, end, close);
      LexSelection(rel, selections[0], level + 1, more, TokensSelections(selections[1..], close));
      LexOpen(rel, level + 1, PrintSelection(selections[0], level + 1, more), TokensSelections(selections, close));
    }
  }

  lemma {:induction false} LexMoreSelections(rel: Relation, selections: seq<Selection>, level: nat, rest: string, ts: seq<Token>)
    requires Laws(rel) && SelectionsOk(selections) && Closes(rest) && rel(rest, ts)
    ensures rel(PrintMoreSelections(selections, level, rest), TokensSelections(selections, ts))
    decreases selections, 0
  {
    if selections != [] {
      var more := PrintMoreSelections(selections[1..], level, rest);
      assert selections[0] in selections;
      LexMoreSelections(rel, selections[1..], level, rest, ts);
      LexSelection(rel, selections[0], level, more, TokensSelections(selections[1..], ts));
      LexNewline(rel, level, PrintSelection(selections[0], level, more), TokensSelections(selections, ts));
    }
  }

  lemma {:induction false} LexSpacedSet(rel: Relation, selections: seq<Selection>, level: nat, rest: string, ts: seq<Token>)
    requires Laws(rel) && SelectionsOk(selections) && Closes(rest) && rel(rest, ts)
    ensures rel(PrintSpacedSet(selections, level, rest), TokensSelectionSet(selections, ts))
    decreases selections, 2
  {
    if selections != [] {
      LexSelectionSet(rel, selections, level, rest, ts);
      LexSpace(rel, PrintSelectionSet(selections, level, rest), TokensSelectionSet(selections, ts));
    }
  }

  /** Directives and a selection set, as they stand at the end of most nodes. */
  lemma {:induction false} LexTail(rel: Relation, ds: seq<Directive>, selections: seq<Selection>, level: nat, rest: string, ts: seq<Token>)
    requires Laws(rel) && DirectivesOk(ds, false) && SelectionsOk(selections) && Closes(rest) && rel(rest, ts)
    ensures rel(PrintMoreDirectives(ds, level, PrintSpacedSet(selections, level, rest)),
                TokensDirectives(ds, TokensSelectionSet(selections, ts)))
    decreases selections, 3
  {
    LexSpacedSet(rel, selections, level, rest, ts);
    LexDirectives(rel, ds, false, level, PrintSpacedSet(selections, level, rest), TokensSelectionSet(selections, ts));
  }

  lemma LexSpreadName(rel: Relation, name: string, rest: string, ts: seq<Token>)
    requires Laws(rel) && IsName(name) && Closes(rest) && rel(rest, ts)
    ensures rel("..." + (name + rest), [Punct(Spread), NameToken(name)] + ts)
  {
    LawName(rel, name, rest, ts);
    LawSpread(rel, name + rest, [NameToken(name)] + ts);
    assert [Punct(Spread)] + ([NameToken(name)] + ts) == [Punct(Spread), NameToken(name)] + ts;
  }

  lemma {:induction false} LexSelection(rel: Relation, s: Selection, level: nat, rest: string, ts: seq<Token>)
    requires Laws(rel) && SelectionOk(s) && Closes(rest) && rel(rest, ts)
    ensures rel(PrintSelection(s, level, rest), TokensSelection(s, ts))
    decreases s
  {
    match s
    case Field(_, _, _, _, _) => LexFieldSelection(rel, s, level, rest, ts);
    case FragmentSpread(name, directives) =>
      LexDirectives(rel, directives, false, level, rest, ts);
      LexSpreadName(rel, name, PrintMoreDirectives(directives, level, rest), TokensDirectives(directives, ts));
    case InlineFragment(_, _, _) => LexInlineFragment(rel, s, level, rest, ts);
  }

  /** The name of a field, with or without an alias. */
  lemma LexFieldName(rel: Relation, alias: Option<string>, name: string, rest: string, ts: seq<Token>)
    requires Laws(rel) && (alias == None || IsName(alias.value)) && IsName(name) && Closes(rest) && rel(rest, ts)
    ensures rel(if alias == None then name + rest else alias.value + (": " + (name + rest)),
                (if alias == None then [] else [NameToken(alias.value), Punct(Colon)]) + ([NameToken(name)] + ts))
  {
    LawName(rel, name, rest, ts);
    if alias.Some? {
      LexNameColon(rel, alias.value, name + rest, [NameToken(name)] + ts);
    } else {
      assert [] + ([NameToken(name)] + ts) == [NameToken(name)] + ts;
    }
  }

  lemma {:induction false} LexFieldSelection(rel: Relation, s: Selection, level: nat, rest: string, ts: seq<Token>)
    requires Laws(rel) && s.Field? && SelectionOk(s) && Closes(rest) && rel(rest, ts)
    ensures rel(PrintSelection(s, level, rest), TokensSelection(s, ts))
    decreases s, 0
  {
    var tail := PrintMoreDirectives(s.directives, level, PrintSpacedSet(s.selections, level, rest));
    var tokens := TokensDirectives(s.directives, TokensSelectionSet(s.selections, ts));
    LexTail(rel, s.directives, s.selections, level, rest, ts);
    LexArguments(rel, s.arguments, false, level, tail, tokens);
    LexFieldName(rel, s.alias, s.name, PrintArguments(s.arguments, level, tail), TokensArguments(s.arguments, tokens));
  }

  /** The dots of an inline fragment, and its type condition. */
  lemma LexCondition(rel: Relation, condition: Option<string>, rest: string, ts: seq<Token>)
    requires Laws(rel) && (condition == None || IsName(condition.value)) && Closes(rest) && rel(rest, ts)
    ensures rel("..." + if condition == None then rest else " on " + (condition.value + rest),
                [Punct(Spread)] + ((if condition == None then [] else [NameToken("on"), NameToken(condition.value)]) + ts))
  {
    if condition == None {
      LawSpread(rel, rest, ts);
      assert [] + ts == ts;
    } else {
      LexOn(rel, condition.value, rest, ts);
      LawSpread(rel, " on " + (condition.value + rest), [NameToken("on"), NameToken(condition.value)] + ts);
    }
  }

  lemma {:induction false} LexInlineFragment(rel: Relation, s: Selection, level: nat, rest: string, ts: seq<Token>)
    requires Laws(rel) && s.InlineFragment? && SelectionOk(s) && Closes(rest) && rel(rest, ts)
    ensures rel(PrintSelection(s, level, rest), TokensSelection(s, ts))
    decreases s, 0
  {
    LexTail(rel, s.directives, s.selections, level, rest, ts);
    LexCondition(rel, s.condition, PrintMoreDirectives(s.directives, level, PrintSpacedSet(s.selections, level, rest)),
                 TokensDirectives(s.directives, TokensSelectionSet(s.selections, ts)));
  }

  // ---------------------------------------------------------------------------------------------
  // Definitions
  // ---------------------------------------------------------------------------------------------

  lemma LexEquals(rel: Relation, rest: string, ts: seq<Token>)
    requires Laws(rel) && rel(rest, ts)
    ensures rel(" = " + rest, [Punct(Equals)] + ts)
  {
    LexSpace(rel, rest, ts);
    LawPunctuator(rel, '=', " " + rest, ts);
    LexSpace(rel, ['='] + (" " + rest), [Punct(Equals)] + ts);
    assert " = " + rest == " " + (['='] + (" " + rest));
  }

  lemma LexVariableName(rel: Relation, name: string, rest: string, ts: seq<Token>)
    requires Laws(rel) && IsName(name) && rel(rest, ts)
    ensures rel("$" + (name + (": " + rest)), [Punct(Dollar), NameToken(name), Punct(Colon)] + ts)
  {
    LexNameColon(rel, name, rest, ts);
    LawPunctuator(rel, '$', name + (": " + rest), [NameToken(name), Punct(Colon)] + ts);
    assert [Punct(Dollar)] + ([NameToken(name), Punct(Colon)] + ts) == [Punct(Dollar), NameToken(name), Punct(Colon)] + ts;
  }

  lemma LexVariableDefinition(rel: Relation, d: VariableDefinition, level: nat, rest: string, ts: seq<Token>)
    requires Laws(rel) && VariableOk(d) && Closes(rest) && rel(rest, ts)
    ensures rel(PrintVariableDefinition(d, level, rest), TokensVariableDefinition(d, ts))
  {
    var tail, tokens := PrintMoreDirectives(d.directives, level, rest), TokensDirectives(d.directives, ts);
    LexDirectives(rel, d.directives, true, level, rest, ts);
    if d.default_ == None {
      LexType(rel, d.type_, tail, tokens);
      LexVariableName(rel, d.name, PrintType(d.type_, tail), TokensType(d.type_, tokens));
    } else {
      var value, valueTokens := PrintValue(d.default_.value, level, tail), TokensValue(d.default_.value, tokens);
      LexValue(rel, d.default_.value, true, level, tail, tokens);
      LexEquals(rel, value, valueTokens);
      LexType(rel, d.type_, " = " + value, [Punct(Equals)] + valueTokens);
      LexVariableName(rel, d.name, PrintType(d.type_, " = " + value), TokensType(d.type_, [Punct(Equals)] + valueTokens));
    }
  }

  lemma {:induction false} LexMoreVariables(rel: Relation, ds: seq<VariableDefinition>, level: nat, rest: string, ts: seq<Token>)
    requires Laws(rel) && VariablesOk(ds) && Closes(rest) && rel(rest, ts)
    ensures rel(PrintMoreVariables(ds, level, rest), TokensVariableList(ds, ts))
  {
    if ds != [] {
      var more := PrintMoreVariables(ds[1..], level, rest);
      assert ds[0] in ds;
      LexMoreVariables(rel, ds[1..], level, rest, ts);
      LexVariableDefinition(rel, ds[0], level, more, TokensVariableList(ds[1..], ts));
      LexComma(rel, PrintVariableDefinition(ds[0], level, more), TokensVariableList(ds, ts));
    }
  }

  lemma LexVariables(rel: Relation, ds: seq<VariableDefinition>, level: nat, rest: string, ts: seq<Token>)
    requires Laws(rel) && VariablesOk(ds) && Closes(rest) && rel(rest, ts)
    ensures rel(PrintVariables(ds, level, rest), TokensVariables(ds, ts))
  {
    if ds != [] {
      var end, close := ")" + rest, [Punct(RightParen)] + ts;
      var more := PrintMoreVariables(ds[1..], level, end);
      assert ds[0] in ds;
      LawPunctuator(rel, ')', rest, ts);
      LexMoreVariables(rel, ds[1..], level, end, close);
      LexVariableDefinition(rel, ds[0], level, more, TokensVariableList(ds[1..], close));
      LawPunctuator(rel, '(', PrintVariableDefinition(ds[0], level, more), TokensVariableList(ds, close));
    }
  }

  /** A name, a space and more. */
  lemma LexKeyword(rel: Relation, keyword: string, rest: string, ts: seq<Token>)
    requires Laws(rel) && IsName(keyword) && rel(rest, ts)
    ensures rel(keyword + (" " + rest), [NameToken(keyword)] + ts)
  {
    LexSpace(rel, rest, ts);
    LawName(rel, keyword, " " + rest, ts);
  }

  /** The keyword and the name of an operation in front of its variables. */
  lemma LexHead(rel: Relation, keyword: string, title: Option<string>, bare: bool, rest: string, ts: seq<Token>)
    requires Laws(rel) && IsName(keyword) && (title == None || IsName(title.value)) && Closes(rest) && rel(rest, ts)
    ensures rel(keyword + if title == None && bare then rest else " " + if title == None then rest else title.value + rest,
                [NameToken(keyword)] + ((if title == None then [] else [NameToken(title.value)]) + ts))
  {
    if title.Some? {
      LawName(rel, title.value, rest, ts);
      LexKeyword(rel, keyword, title.value + rest, [NameToken(title.value)] + ts);
    } else {
      assert [] + ts == ts;
      if bare { LawName(rel, keyword, rest, ts); } else { LexKeyword(rel, keyword, rest, ts); }
    }
  }

  lemma KeywordIsName(operation: Option<OperationType>)
    ensures IsName(Keyword(operation))
  {
  }

  lemma LexOperation(rel: Relation, d: Definition, level: nat, rest: string, ts: seq<Token>)
    requires Laws(rel) && DefinitionOk(d) && Closes(rest) && d.Operation? && !IsShorthand(d) && rel(rest, ts)
    ensures rel(PrintDefinition(d, level, rest), TokensDefinition(d, ts))
  {
    var more := PrintMoreDirectives(d.directives, level, PrintSpacedSet(d.selections, level, rest));
    var tokens := TokensDirectives(d.directives, TokensSelectionSet(d.selections, ts));
    LexTail(rel, d.directives, d.selections, level, rest, ts);
    LexVariables(rel, d.variables, level, more, tokens);
    KeywordIsName(d.operation);
    LexHead(rel, Keyword(d.operation), d.title, d.variables == [], PrintVariables(d.variables, level, more),
            TokensVariables(d.variables, tokens));
  }

  lemma LexFragmentHead(rel: Relation, name: string, rest: string, ts: seq<Token>)
    requires Laws(rel) && IsName(name) && Closes(rest) && rel(rest, ts)
    ensures rel("fragment " + (name + rest), [NameToken("fragment"), NameToken(name)] + ts)
  {
    LawName(rel, name, rest, ts);
    LexKeyword(rel, "fragment", name + rest, [NameToken(name)] + ts);
    assert "fragment " + (name + rest) == "fragment" + (" " + (name + rest));
    assert [NameToken("fragment")] + ([NameToken(name)] + ts) == [NameToken("fragment"), NameToken(name)] + ts;
  }

  lemma LexFragment(rel: Relation, d: Definition, level: nat, rest: string, ts: seq<Token>)
    requires Laws(rel) && DefinitionOk(d) && Closes(rest) && d.Fragment? && rel(rest, ts)
    ensures rel(PrintDefinition(d, level, rest), TokensDefinition(d, ts))
  {
    var more := PrintMoreDirectives(d.directives, level, PrintSpacedSet(d.selections, level, rest));
    var tokens := TokensDirectives(d.directives, TokensSelectionSet(d.selections, ts));
    var on, onTokens := " on " + (d.condition + more), [NameToken("on"), NameToken(d.condition)] + tokens;
    LexTail(rel, d.directives, d.selections, level, rest, ts);
    LexOn(rel, d.condition, more, tokens);
    LexVariables(rel, d.variables, level, on, onTokens);
    LexFragmentHead(rel, d.name, PrintVariables(d.variables, level, on), TokensVariables(d.variables, onTokens));
  }

  lemma LexDefinition(rel: Relation, d: Definition, level: nat, rest: string, ts: seq<Token>)
    requires Laws(rel) && DefinitionOk(d) && Closes(rest) && rel(rest, ts)
    ensures rel(PrintDefinition(d, level, rest), TokensDefinition(d, ts))
  {
    if d.Fragment? {
      LexFragment(rel, d, level, rest, ts);
    } else if IsShorthand(d) {
      LexSelectionSet(rel, d.selections, level, rest, ts);
    } else {
      LexOperation(rel, d, level, rest, ts);
    }
  }

  lemma {:induction false} LexMoreDefinitions(rel: Relation, ds: seq<Definition>, level: nat, rest: string, ts: seq<Token>)
    requires Laws(rel) && (forall d | d in ds :: DefinitionOk(d)) && Closes(rest) && rel(rest, ts)
    ensures rel(PrintMoreDefinitions(ds, level, rest), TokensDefinitions(ds, ts))
  {
    if ds != [] {
      var more := PrintMoreDefinitions(ds[1..], level, rest);
      assert ds[0] in ds;
      LexMoreDefinitions(rel, ds[1..], level, rest, ts);
      LexDefinition(rel, ds[0], level, more, TokensDefinitions(ds[1..], ts));
      assert AllWhitespace("\n\n") && Front("\n\n", PrintDefinition(ds[0], level, more), TokensDefinitions(ds, ts));
    }
  }

  lemma LexDocument(rel: Relation, ds: seq<Definition>)
    requires Laws(rel) && DocumentOk(ds) && rel("\n", [END])
    ensures rel(PrintDocument(ds), TokensDefinitions(ds, [END]))
  {
    assert ds[0] in ds;
    LexMoreDefinitions(rel, ds[1..], 0, "\n", [END]);
    LexDefinition(rel, ds[0], 0, PrintMoreDefinitions(ds[1..], 0, "\n"), TokensDefinitions(ds[1..], [END]));
  }

  /** The tokens of a printed document are those of the document, exactly if these are printable. */
  lemma PrintedDocumentLexes(ds: seq<Definition>)
    requires DocumentOk(ds)
    ensures Lex(PrintDocument(ds)) == TokensDefinitions(ds, [END]) <==> AllPrintable(TokensDefinitions(ds, [END]))
  {
    LexIsLawful();
    LexWhitespace("\n", "");
    assert "\n" + "" == "\n" && Lex("") == [END];
    LexDocument((s, ts) => LexesExactly(s, ts), ds);
  }
}
