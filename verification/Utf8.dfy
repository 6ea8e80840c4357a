/** UTF-8 as Go's unicode/utf8 decodes and encodes it. A string is a sequence of bytes: characters below 256. */
module Utf8 {

  predicate Bytes(s: string) {
    forall i | 0 <= i < |s| :: s[i] as int < 256
  }

  const RUNE_ERROR: int := 0xFFFD
  const RUNE_SELF: int := 0x80

  /** A Unicode code point outside the surrogates. */
  predicate IsScalar(r: int) {
    0 <= r < 0xD800 || 0xE000 <= r < 0x11_0000
  }

  type Scalar = r: int | IsScalar(r)

  predicate Continues(s: string, i: nat) {
    i < |s| && 0x80 <= s[i] as int < 0xC0
  }

  /** The number of bytes of the encoding that `s` starts with, or zero if it starts with none. */
  function HeadSize(s: string): (n: nat)
    requires s != ""
    ensures n <= 4 && n <= |s|
  {
    var b := s[0] as int;
    if b < 0x80 then 1
    else if 0xC2 <= b < 0xE0 then if Continues(s, 1) then 2 else 0
    else if 0xE0 <= b < 0xF0 then
      if Continues(s, 1) && Continues(s, 2)
         && (b == 0xE0 ==> s[1] as int >= 0xA0) && (b == 0xED ==> s[1] as int < 0xA0) then 3 else 0
    else if 0xF0 <= b < 0xF5 then
      if Continues(s, 1) && Continues(s, 2) && Continues(s, 3)
         && (b == 0xF0 ==> s[1] as int >= 0x90) && (b == 0xF4 ==> s[1] as int < 0x90) then 4 else 0
    else 0
  }

  /** The code point that `s` starts with. */
  function HeadRune(s: string): (r: Scalar)
    requires s != "" && HeadSize(s) > 0
  {
    var b := s[0] as int;
    var n := HeadSize(s);
    if n == 1 then b
    else if n == 2 then (b - 0xC0) * 0x40 + (s[1] as int - 0x80)
    else if n == 3 then (b - 0xE0) * 0x1000 + (s[1] as int - 0x80) * 0x40 + (s[2] as int - 0x80)
    else (b - 0xF0) * 0x4_0000 + (s[1] as int - 0x80) * 0x1000 + (s[2] as int - 0x80) * 0x40 + (s[3] as int - 0x80)
  }

  /** DecodeRuneInString: an invalid byte decodes to the error rune with size one. */
  function DecodeRune(s: string): (int, nat)
    requires s != ""
  {
    if HeadSize(s) == 0 then (RUNE_ERROR, 1) else (HeadRune(s), HeadSize(s))
  }

  /** The byte that holds six bits after the first byte. */
  function Tail(bits: int): char
    requires 0 <= bits < 0x40
  {
    (0x80 + bits) as char
  }

  function Encode(r: Scalar): (s: string)
    ensures s != "" && Bytes(s)
  {
    assert IsScalar(r);
    var q0 := r / 0x40;
    if r < 0x80 then [r as char]
    else if r < 0x800 then assert 0 <= q0 < 0x20; [(0xC0 + q0) as char, Tail(r % 0x40)]
    else
      var q1 := q0 / 0x40;
      if r < 0x1_0000 then [(0xE0 + q1) as char, Tail(q0 % 0x40), Tail(r % 0x40)]
      else
        var q2 := q1 / 0x40;
        assert 0 <= q2 < 5;
        [(0xF0 + q2) as char, Tail(q1 % 0x40), Tail(q0 % 0x40), Tail(r % 0x40)]
  }

  /** WriteRune: a number that is no code point is written as the error rune. */
  function EncodeRune(r: int): string {
    if IsScalar(r) then Encode(r) else Encode(RUNE_ERROR)
  }

  predicate Valid(s: string) {
    s == "" || (HeadSize(s) > 0 && Valid(s[HeadSize(s)..]))
  }

  /** `s` with every byte that starts no encoding replaced by the error rune. */
  function Sanitized(s: string): string {
    if s == "" then ""
    else if HeadSize(s) == 0 then Encode(RUNE_ERROR) + Sanitized(s[1..])
    else s[..HeadSize(s)] + Sanitized(s[HeadSize(s)..])
  }

  lemma SixBits(high: int, low: int)
    requires 0 <= high && 0 <= low < 0x40
    ensures (high * 0x40 + low) / 0x40 == high && (high * 0x40 + low) % 0x40 == low
  {
  }

  /** Encoding what was decoded gives the same bytes. */
  lemma EncodeHead(s: string)
    requires s != "" && HeadSize(s) > 0
    ensures Encode(HeadRune(s)) == s[..HeadSize(s)]
  {
    var n := HeadSize(s);
    if n == 2 {
      SixBits(s[0] as int - 0xC0, s[1] as int - 0x80);
    } else if n == 3 {
      EncodeThree(s);
    } else if n == 4 {
      EncodeFour(s);
    }
  }

  lemma EncodeThree(s: string)
    requires s != "" && HeadSize(s) == 3
    ensures Encode(HeadRune(s)) == s[..3]
  {
    var b0, b1, b2 := s[0] as int - 0xE0, s[1] as int - 0x80, s[2] as int - 0x80;
    SixBits(b0 * 0x40 + b1, b2);
    SixBits(b0, b1);
    assert HeadRune(s) == (b0 * 0x40 + b1) * 0x40 + b2;
    assert s[..3] == [s[0], s[1], s[2]];
  }

  lemma EncodeFour(s: string)
    requires s != "" && HeadSize(s) == 4
    ensures Encode(HeadRune(s)) == s[..4]
  {
    var b0, b1, b2, b3 := s[0] as int - 0xF0, s[1] as int - 0x80, s[2] as int - 0x80, s[3] as int - 0x80;
    SixBits((b0 * 0x40 + b1) * 0x40 + b2, b3);
    SixBits(b0 * 0x40 + b1, b2);
    SixBits(b0, b1);
    assert HeadRune(s) == ((b0 * 0x40 + b1) * 0x40 + b2) * 0x40 + b3;
    assert s[..4] == [s[0], s[1], s[2], s[3]];
  }

  /** A string is valid UTF-8 exactly if sanitizing leaves it alone. */
  lemma {:induction false} SanitizedValid(s: string)
    ensures |Sanitized(s)| >= |s|
    ensures Sanitized(s) == s <==> Valid(s)
  {
    if s != "" {
      var n := HeadSize(s);
      if n == 0 {
        SanitizedValid(s[1..]);
        assert |Encode(RUNE_ERROR)| == 3;
      } else {
        SanitizedValid(s[n..]);
        assert s == s[..n] + s[n..];
        assert Sanitized(s)[n..] == Sanitized(s[n..]);
      }
    }
  }
}
