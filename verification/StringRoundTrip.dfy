/** Lexing what the JSON string writer wrote gives the string back. */
module StringRoundTrip {
  import opened Wrappers
  import opened Utf8
  import opened JsonStream
  import opened Lexing

  lemma HexDigits(n: int)
    requires 0 <= n < 16
    ensures HexValue(HexDigit(n)) == n
  {
  }

  /** A six-byte escape for a code point below 256 or a line separator. */
  lemma UnicodeEscape(s: string, i: nat, value: string, a: int, b: int, c: int, d: int)
    requires 0 <= a < 16 && 0 <= b < 16 && 0 <= c < 16 && 0 <= d < 16
    requires i + 6 <= |s| && s[i..i + 6] == ['\\', 'u', HexDigit(a), HexDigit(b), HexDigit(c), HexDigit(d)]
    ensures StringFrom(s, i, value) ==
              StringFrom(s, i + 6, value + EncodeRune(a * 0x1000 + b * 0x100 + c * 0x10 + d))
  {
    HexDigits(a);
    HexDigits(b);
    HexDigits(c);
    HexDigits(d);
    var t := s[i..i + 6];
    assert s[i] == t[0] && s[i + 1] == t[1] && s[i + 2] == t[2] && s[i + 3] == t[3] && s[i + 4] == t[4] && s[i + 5] == t[5];
  }

  /** An escaped ASCII byte lexes to the byte. */
  lemma ByteEscape(s: string, i: nat, value: string, c: char)
    requires c as int < RUNE_SELF && !HtmlSafe(c)
    requires var e := EscapeByte(c); i + |e| <= |s| && s[i..i + |e|] == e
    ensures StringFrom(s, i, value) == StringFrom(s, i + |EscapeByte(c)|, value + [c])
  {
    var e := EscapeByte(c);
    assert s[i] == s[i..i + |e|][0] && s[i + 1] == s[i..i + |e|][1];
    if |e| == 6 {
      var n := c as int;
      assert HexDigit(0) == '0';
      UnicodeEscape(s, i, value, 0, 0, n / 16, n % 16);
      assert 0 * 0x1000 + 0 * 0x100 + n / 16 * 0x10 + n % 16 == n;
      assert EncodeRune(n) == [c];
    }
  }

  /** Bytes from 0x80 on are taken as they are. */
  lemma {:induction false} RawBytes(s: string, i: nat, value: string, n: nat)
    requires i + n <= |s| && forall k | i <= k < i + n :: s[k] as int >= RUNE_SELF
    ensures StringFrom(s, i, value) == StringFrom(s, i + n, value + s[i..i + n])
    decreases n
  {
    if n == 0 {
      assert value + s[i..i] == value;
    } else {
      RawBytes(s, i + 1, value + [s[i]], n - 1);
      assert value + [s[i]] + s[i + 1..i + n] == value + s[i..i + n];
    }
  }

  /** What the first character of `s` is written as. */
  function Written(s: string): string
    requires s != ""
  {
    var (escape, size) := EscapeOf(s);
    if escape == None then s[..size] else escape.value
  }

  /** What the first character of `s` is read back as. */
  function ReadBack(s: string): string
    requires s != ""
  {
    if HeadSize(s) == 0 then Encode(RUNE_ERROR) else s[..EscapeOf(s).1]
  }

  /** The first character of `s`, as it is written. */
  lemma FirstCharacter(t: string, i: nat, value: string, s: string)
    requires s != ""
    requires i + |Written(s)| <= |t| && t[i..i + |Written(s)|] == Written(s)
    ensures StringFrom(t, i, value) == StringFrom(t, i + |Written(s)|, value + ReadBack(s))
  {
    var (escape, size) := EscapeOf(s);
    var e := if escape == None then s[..size] else escape.value;
    if s[0] as int < RUNE_SELF {
      assert s[..1] == [s[0]];
      if escape == None {
        assert t[i] == e[0];
      } else {
        ByteEscape(t, i, value, s[0]);
      }
    } else if HeadSize(s) == 0 {
      assert "\\ufffd" == ['\\', 'u', HexDigit(15), HexDigit(15), HexDigit(15), HexDigit(13)];
      UnicodeEscape(t, i, value, 15, 15, 15, 13);
    } else if escape == None {
      assert forall k | 0 <= k < |e| :: t[i + k] == e[k];
      RawBytes(t, i, value, size);
    } else {
      Separator(t, i, value, s);
    }
  }

  /** A line separator is written as an escape. */
  lemma Separator(t: string, i: nat, value: string, s: string)
    requires s != "" && s[0] as int >= RUNE_SELF && HeadSize(s) > 0 && EscapeOf(s).0.Some?
    requires i + |Written(s)| <= |t| && t[i..i + |Written(s)|] == Written(s)
    ensures StringFrom(t, i, value) == StringFrom(t, i + |Written(s)|, value + ReadBack(s))
  {
    var r := HeadRune(s);
    assert HexDigit(2) == '2' && HexDigit(0) == '0';
    UnicodeEscape(t, i, value, 2, 0, 2, r % 16);
    assert 2 * 0x1000 + 0 * 0x100 + 2 * 0x10 + r % 16 == r;
    EncodeHead(s);
  }

  // ---------------------------------------------------------------------------------------------
  // Piece by piece
  // ---------------------------------------------------------------------------------------------

  /** A character as it is written and as it is read back. */
  datatype Piece = Piece(written: string, meant: string)

  function AllWritten(ps: seq<Piece>): string {
    if ps == [] then "" else ps[0].written + AllWritten(ps[1..])
  }

  function AllMeant(ps: seq<Piece>): string {
    if ps == [] then "" else ps[0].meant + AllMeant(ps[1..])
  }

  type Reader = (string, nat, string) -> Result<(string, nat), LexError>

  /** Marks the places where a piece is read, so that none is tried elsewhere. */
  predicate Here(t: string, i: nat, value: string) { true }

  /** The piece is read back wherever it stands. */
  ghost predicate Reads(read: Reader, p: Piece) {
    forall t, i: nat, value {:trigger Here(t, i, value)} | i + |p.written| <= |t| && t[i..i + |p.written|] == p.written ::
      read(t, i, value) == read(t, i + |p.written|, value + p.meant)
  }

  /** A quote ends the string. */
  ghost predicate Ends(read: Reader) {
    forall t, i: nat, value {:trigger Here(t, i, value)} | i < |t| && t[i] == '"' :: read(t, i, value) == Ok((value, i + 1))
  }

  /** The text `w` stands at `i`, with a quote behind it. */
  predicate WrittenAt(t: string, i: nat, w: string) {
    i + |w| < |t| && t[i..i + |w|] == w && t[i + |w|] == '"'
  }

  lemma {:induction false} ReadsPieces(read: Reader, ps: seq<Piece>, t: string, i: nat, value: string)
    requires Ends(read) && (forall p | p in ps :: Reads(read, p)) && WrittenAt(t, i, AllWritten(ps))
    ensures read(t, i, value) == Ok((value + AllMeant(ps), i + |AllWritten(ps)| + 1))
    decreases |ps|
  {
    assert Here(t, i, value);
    if ps == [] {
      assert value + "" == value;
    } else {
      var p, rest := ps[0], ps[1..];
      assert Reads(read, p);
      SplitWritten(t, i, p.written, AllWritten(rest));
      ReadsPieces(read, rest, t, i + |p.written|, value + p.meant);
      Regroup(value, p.meant, AllMeant(rest));
    }
  }

  lemma SplitWritten(t: string, i: nat, w: string, e: string)
    requires WrittenAt(t, i, w + e)
    ensures i + |w| <= |t| && t[i..i + |w|] == w && WrittenAt(t, i + |w|, e)
  {
    SplitAt(t, i, w, e);
  }

  lemma FirstPieceReads(s: string)
    requires s != ""
    ensures Reads((t, i, value) => StringFrom(t, i, value), Piece(Written(s), ReadBack(s)))
  {
    forall t, i: nat, value | i + |Written(s)| <= |t| && t[i..i + |Written(s)|] == Written(s)
      ensures StringFrom(t, i, value) == StringFrom(t, i + |Written(s)|, value + ReadBack(s))
    {
      FirstCharacter(t, i, value, s);
    }
  }

  lemma FirstPieceIs(s: string)
    requires s != ""
    ensures Escaped(s) == Written(s) + Escaped(s[EscapeOf(s).1..]) && Sanitized(s) == ReadBack(s) + Sanitized(s[EscapeOf(s).1..])
    ensures Written(s) != "" && Written(s)[0] != '"'
  {
    ReadBackFirst(s);
    NoQuoteFirst(s);
  }

  lemma ReadBackFirst(s: string)
    requires s != ""
    ensures Sanitized(s) == ReadBack(s) + Sanitized(s[EscapeOf(s).1..])
  {
  }

  /** What is written of a character does not start with a quote. */
  lemma NoQuoteFirst(s: string)
    requires s != ""
    ensures Written(s) != "" && Written(s)[0] != '"'
  {
  }

  /** Every string is made of pieces. */
  lemma {:induction false} Pieces(s: string) returns (ps: seq<Piece>)
    ensures AllWritten(ps) == Escaped(s) && AllMeant(ps) == Sanitized(s)
    ensures forall p | p in ps :: Reads((t, i, value) => StringFrom(t, i, value), p)
    ensures s != "" ==> Escaped(s) != "" && Escaped(s)[0] != '"'
    decreases |s|
  {
    if s == "" {
      ps := [];
    } else {
      var rest := Pieces(s[EscapeOf(s).1..]);
      FirstPieceIs(s);
      FirstPieceReads(s);
      ps := [Piece(Written(s), ReadBack(s))] + rest;
      assert ps[1..] == rest;
    }
  }

  lemma StringEnds()
    ensures Ends((t, i, value) => StringFrom(t, i, value))
  {
  }

  /** A quoted string lexes, up to its closing quote, to the sanitized string: the string itself exactly if
      it is valid UTF-8. (A quote right behind an empty string would begin a block string.) */
  lemma QuotedLexes(s: string, rest: string)
    requires s == "" ==> ByteAt(rest, 0) != '"'
    ensures LexQuote(Quoted(s) + rest) == Ok((Token(String, Sanitized(s)), |Quoted(s)|))
    ensures Sanitized(s) == s <==> Valid(s)
  {
    SanitizedValid(s);
    if s == "" {
      EmptyLexes(rest);
    } else {
      var ps := Pieces(s);
      PiecesLex(ps, rest);
    }
  }

  lemma EmptyLexes(rest: string)
    requires ByteAt(rest, 0) != '"'
    ensures LexQuote(Quoted("") + rest) == Ok((Token(String, Sanitized("")), |Quoted("")|))
  {
    var t := Quoted("") + rest;
    assert t[1] == '"' && ByteAt(t, 2) == ByteAt(rest, 0);
  }

  lemma PiecesLex(ps: seq<Piece>, rest: string)
    requires forall p | p in ps :: Reads((t, i, value) => StringFrom(t, i, value), p)
    requires AllWritten(ps) != "" && AllWritten(ps)[0] != '"'
    ensures LexQuote("\"" + AllWritten(ps) + "\"" + rest) == Ok((Token(String, AllMeant(ps)), |AllWritten(ps)| + 2))
  {
    var t := "\"" + AllWritten(ps) + "\"" + rest;
    QuotedAt(AllWritten(ps), rest);
    StringEnds();
    ReadsPieces((t, i, value) => StringFrom(t, i, value), ps, t, 1, "");
    assert "" + AllMeant(ps) == AllMeant(ps);
    assert t[1] == t[1..1 + |AllWritten(ps)|][0];
  }

  lemma QuotedAt(w: string, rest: string)
    ensures var t := "\"" + w + "\"" + rest; |t| > 1 && t[0] == '"' && WrittenAt(t, 1, w)
  {
    var t := "\"" + w + "\"" + rest;
    assert t[1..1 + |w|] == w && t[1 + |w|] == '"';
  }
}
