/** The buffered JSON stream (jsonwriter/stream.go) and its string writer (jsonwriter/stream_string.go). */
module JsonStream {
  import opened Wrappers
  import opened Utf8

  const BUFFER_SIZE: nat := 512

  // ---------------------------------------------------------------------------------------------
  // Quoted strings
  // ---------------------------------------------------------------------------------------------

  /** The ASCII bytes that are written as they are. */
  predicate HtmlSafe(c: char) {
    ' ' <= c && c as int < RUNE_SELF && c != '"' && c != '\\' && c != '<' && c != '>' && c != '&'
  }

  function HexDigit(n: int): char
    requires 0 <= n < 16
  {
    if n < 10 then ('0' as int + n) as char else ('a' as int + n - 10) as char
  }

  function EscapeByte(c: char): string
    requires c as int < RUNE_SELF
  {
    if c == '\\' || c == '"' then ['\\', c]
    else if c == '\n' then "\\n"
    else if c == '\r' then "\\r"
    else if c == '\t' then "\\t"
    else ['\\', 'u', '0', '0', HexDigit(c as int / 16), HexDigit(c as int % 16)]
  }

  predicate LineSeparator(r: int) { r == 0x2028 || r == 0x2029 }

  /** What the first character of `s` is written as, if not as it is, and its size. */
  function EscapeOf(s: string): (r: (Option<string>, nat))
    requires s != ""
    ensures 0 < r.1 <= |s|
  {
    if s[0] as int < RUNE_SELF then (if HtmlSafe(s[0]) then None else Some(EscapeByte(s[0])), 1)
    else
      var (c, size) := DecodeRune(s);
      if c == RUNE_ERROR && size == 1 then (Some("\\ufffd"), 1)
      else if LineSeparator(c) then (Some(['\\', 'u', '2', '0', '2', HexDigit(c % 16)]), size)
      else (None, size)
  }

  /** What the string writer puts between the quotes. */
  function Escaped(s: string): string {
    if s == "" then ""
    else
      var (escape, size) := EscapeOf(s);
      (if escape == None then s[..size] else escape.value) + Escaped(s[size..])
  }

  function Quoted(s: string): string {
    "\"" + Escaped(s) + "\""
  }

  // ---------------------------------------------------------------------------------------------
  // The stream
  // ---------------------------------------------------------------------------------------------

  /** An io.Writer. `fate` tells of each call how many bytes it takes before it fails, if it fails. */
  class Sink {
    var written: string
    var calls: nat
    const fate: nat -> Option<nat>

    constructor (fate: nat -> Option<nat>)
      ensures written == "" && calls == 0 && this.fate == fate
    {
      written, calls := "", 0;
      this.fate := fate;
    }

    ghost predicate MayFail() {
      exists n :: fate(n).Some?
    }

    method Write(b: string) returns (ok: bool)
      modifies this
      ensures calls == old(calls) + 1 && ok == fate(old(calls)).None? && (!ok ==> MayFail())
      ensures written <= old(written) + b && old(written) <= written
      ensures ok ==> written == old(written) + b
    {
      var n := fate(calls);
      ok := n.None?;
      calls := calls + 1;
      written := written + if n.Some? && n.value < |b| then b[..n.value] else b;
    }
  }

  /** `sent` is the concatenation of everything that was written to the stream. */
  class Stream {
    const w: Sink
    var buf: string
    var failed: bool
    ghost var sent: string

    /** What reached the sink is a prefix of what was sent, and as long as no write failed the buffer
        holds the rest. The stream fails only if the sink did. */
    ghost predicate Valid()
      reads this, w
    {
      && w.written <= sent && (!failed ==> sent == w.written + buf)
      && (failed ==> w.MayFail())
    }

    constructor (w: Sink)
      requires w.written == ""
      ensures Valid() && this.w == w && sent == "" && !failed
    {
      this.w := w;
      buf, failed, sent := "", false, "";
    }

    /** write{One,Two,Three,Four,Five,Six}Bytes: the buffer grows without limit. */
    method WriteBytes(b: string)
      requires Valid()
      modifies this
      ensures Valid() && sent == old(sent) + b && failed == old(failed)
    {
      buf := buf + b;
      sent := sent + b;
      assert !failed ==> sent == w.written + buf;
    }

    method Write(b: string)
      requires Valid()
      modifies this, w
      ensures Valid() && sent == old(sent) + b && (old(failed) ==> failed)
    {
      sent := sent + b;
      if failed { return; }
      if |buf| + |b| < BUFFER_SIZE {
        buf := buf + b;
        return;
      }
      if |buf| > 0 {
        var ok := w.Write(buf);
        buf := "";
        if !ok {
          failed := true;
          return;
        }
      }
      if |b| > 0 {
        var ok := w.Write(b);
        if !ok {
          failed := true;
        }
      }
    }

    /** After a Flush that succeeds, the sink has exactly what was sent. */
    method Flush() returns (ok: bool)
      requires Valid()
      modifies this, w
      ensures Valid() && sent == old(sent) && ok == !failed && (old(failed) ==> failed)
      ensures ok ==> w.written == sent
    {
      if failed { return false; }
      if |buf| > 0 {
        ok := w.Write(buf);
        buf := "";
        if !ok {
          failed := true;
          return;
        }
      }
      ok := true;
    }

    /** Sends the string quoted, whatever is in the buffer. */
    method WriteString(s: string)
      requires Valid()
      modifies this, w
      ensures Valid() && sent == old(sent) + Quoted(s) && (old(failed) ==> failed)
    {
      WriteBytes("\"");
      ghost var all := sent + Escaped(s);
      var i := 0;
      assert s[0..] == s;
      while i < |s|
        invariant Valid() && i <= |s| && sent + Escaped(s[i..]) == all && failed == old(failed)
      {
        var c := s[i];
        if !(c as int < RUNE_SELF && HtmlSafe(c)) { break; }
        EscapedStep(s, i);
        Regroup(sent, [c], Escaped(s[i + 1..]));
        assert s[i..][..1] == [c];
        WriteBytes([c]);
        i := i + 1;
      }
      Regroup(old(sent), "\"", Escaped(s));
      Regroup(old(sent), "\"" + Escaped(s), "\"");
      if i == |s| {
        WriteBytes("\"");
        return;
      }
      WriteStringSlowPath(i, s);
    }

    /** Sends the run of characters from `start` to `end`, then `more`. */
    method WriteRun(s: string, start: nat, end: nat, more: string)
      requires Valid() && start <= end <= |s|
      modifies this, w
      ensures Valid() && sent == old(sent) + s[start..end] + more && (old(failed) ==> failed)
    {
      if start < end { Write(s[start..end]); }
      WriteBytes(more);
    }

    /** The character at `i` joins the run, or the run and the escape of the character are sent. */
    method WriteNext(s: string, start: nat, i: nat, ghost all: string) returns (start': nat, i': nat)
      requires Valid() && start <= i < |s| && Owed(sent, s, start, i, all)
      modifies this, w
      ensures Valid() && start' <= i' <= |s| && i < i' && Owed(sent, s, start', i', all) && (old(failed) ==> failed)
    {
      var escape, size := NextEscape(s, start, i, sent, all);
      i' := i + size;
      start' := start;
      if escape.Some? {
        WriteRun(s, start, i, escape.value);
        start' := i';
      }
    }

    /** Sends runs of characters that stay as they are, each with the escape behind it, up to the last run. */
    method WriteEscapes(first: nat, s: string, ghost all: string) returns (start: nat)
      requires Valid() && first <= |s| && Owed(sent, s, first, first, all)
      modifies this, w
      ensures Valid() && start <= |s| && Owed(sent, s, start, |s|, all) && (old(failed) ==> failed)
    {
      var i := first;
      start := first;
      while i < |s|
        invariant Valid() && start <= i <= |s| && (old(failed) ==> failed)
        invariant Owed(sent, s, start, i, all)
      {
        start, i := WriteNext(s, start, i, all);
      }
    }

    /** Sends what is left of the string. */
    method WriteStringSlowPath(first: nat, s: string)
      requires Valid() && first <= |s|
      modifies this, w
      ensures Valid() && sent == old(sent) + Escaped(s[first..]) + "\"" && (old(failed) ==> failed)
    {
      ghost var all := sent + Escaped(s[first..]);
      OwedStart(sent, s, first);
      var start := WriteEscapes(first, s, all);
      OwedEnd(sent, s, start, all);
      WriteRun(s, start, |s|, "\"");
    }
  }

  /** The next character joins the run, unless it has to be escaped, which ends the run. */
  method NextEscape(s: string, start: nat, i: nat, ghost sent: string, ghost all: string) returns (escape: Option<string>, size: nat)
    requires start <= i < |s| && Owed(sent, s, start, i, all)
    ensures 0 < size && i + size <= |s|
    ensures escape == None ==> Owed(sent, s, start, i + size, all)
    ensures escape.Some? ==> Owed(sent + s[start..i] + escape.value, s, i + size, i + size, all)
  {
    var next := EscapeOf(s[i..]);
    escape, size := next.0, next.1;
    if escape == None {
      RunStep(sent, s, start, i, size, all);
    } else {
      EscapeStep(sent, escape.value, s, start, i, size, all);
    }
  }

  lemma Regroup(a: string, b: string, c: string)
    ensures (a + b) + c == a + (b + c)
  {
  }

  /** With the run from `start` to `i` and the rest of the string, `all` will have been sent. */
  ghost predicate Owed(sent: string, s: string, start: nat, i: nat, all: string)
    requires start <= i <= |s|
  {
    sent + s[start..i] + Escaped(s[i..]) == all
  }

  lemma OwedStart(sent: string, s: string, first: nat)
    requires first <= |s|
    ensures Owed(sent, s, first, first, sent + Escaped(s[first..]))
  {
    assert sent + s[first..first] == sent;
  }

  lemma OwedEnd(sent: string, s: string, start: nat, all: string)
    requires start <= |s| && Owed(sent, s, start, |s|, all)
    ensures sent + s[start..|s|] == all
  {
    assert sent + s[start..|s|] + "" == sent + s[start..|s|];
  }

  /** `size` more characters join the run. */
  lemma RunStep(sent: string, s: string, start: nat, i: nat, size: nat, all: string)
    requires start <= i < |s| && EscapeOf(s[i..]) == (None, size) && Owed(sent, s, start, i, all)
    ensures Owed(sent, s, start, i + size, all)
  {
    EscapedStep(s, i);
    assert s[start..i + size] == s[start..i] + s[i..][..size];
    Regroup(sent, s[start..i], s[i..][..size]);
    Regroup(sent + s[start..i], s[i..][..size], Escaped(s[i + size..]));
  }

  /** An escape ends the run. */
  lemma EscapeStep(sent: string, escape: string, s: string, start: nat, i: nat, size: nat, all: string)
    requires start <= i < |s| && EscapeOf(s[i..]) == (Some(escape), size) && Owed(sent, s, start, i, all)
    ensures Owed(sent + s[start..i] + escape, s, i + size, i + size, all)
  {
    EscapedStep(s, i);
    var rest := Escaped(s[i + size..]);
    assert (sent + s[start..i] + escape) + s[i + size..i + size] == sent + s[start..i] + escape;
    Regroup(sent + s[start..i], escape, rest);
  }

  lemma EscapedStep(s: string, i: nat)
    requires i < |s|
    ensures var (escape, size) := EscapeOf(s[i..]);
            && i + size <= |s|
            && Escaped(s[i..]) == (if escape == None then s[i..][..size] else escape.value) + Escaped(s[i + size..])
  {
    var size := EscapeOf(s[i..]).1;
    assert s[i..][size..] == s[i + size..];
  }
}
