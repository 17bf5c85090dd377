// Text that crosses the remote-command boundary of the ComputeSDK driver
// (packages/ports/sandbox/src/drivers/computesdk.ts): single-quoted shell words and the poll envelope.
module Wire {
  import opened Prelude

  // -------------------------------------------------------------- shell words

  // shq: wrap in single quotes, turning each embedded quote into '\''.
  function Escape(s: string): string {
    if s == "" then ""
    else (if s[0] == '\'' then "'\\''" else [s[0]]) + Escape(s[1..])
  }

  function Shq(s: string): string { "'" + Escape(s) + "'" }

  predicate Ends(c: char) { c == ' ' || c == '\t' || c == '\n' }

  // Unquoted characters the shell would give another meaning (section 2.2 of the POSIX.1-2017 Shell
  // Command Language); a double quote is among them because shq never uses one.
  predicate Special(c: char) {
    c in {'|', '&', ';', '<', '>', '(', ')', '$', '`', '"', '*', '?', '[', '#', '~', '=', '%'}
  }

  datatype Word = Word(text: string, rest: string) | Unreadable

  // One word with its quotes removed: a backslash takes the next character literally, or joins two lines
  // (2.2.1), a single-quoted stretch is literal up to the next quote (2.2.2), a blank ends the word.
  function ReadWord(input: string, quoted: bool, text: string): Word
    decreases |input|
  {
    if input == "" then if quoted then Unreadable else Word(text, "")
    else
      var c, more := input[0], input[1..];
      if quoted then
        if c == '\'' then ReadWord(more, false, text) else ReadWord(more, true, text + [c])
      else if Ends(c) then Word(text, input)
      else if c == '\'' then ReadWord(more, true, text)
      else if c == '\\' then
        if more == "" then Unreadable
        else ReadWord(more[1..], false, if more[0] == '\n' then text else text + [more[0]])
      else if Special(c) then Unreadable
      else ReadWord(more, false, text + [c])
  }

  // An escaped quote leaves the quotes, escapes one quote and enters them again.
  lemma QuoteReadsBack(rest: string, text: string)
    ensures ReadWord("'\\''" + rest, true, text) == ReadWord(rest, true, text + "'")
  {
    var input := "'\\''" + rest;
    assert input[1..] == "\\''" + rest;
    assert input[1..][1..] == "''" + rest;
    assert input[1..][1..][1..] == "'" + rest;
    assert input[1..][1..][1..][1..] == rest;
    assert ReadWord(input, true, text) == ReadWord(input[1..], false, text);
    assert ReadWord(input[1..], false, text) == ReadWord(input[1..][1..][1..], false, text + "'");
  }

  lemma PlainReadsBack(c: char, rest: string, text: string)
    requires c != '\''
    ensures ReadWord([c] + rest, true, text) == ReadWord(rest, true, text + [c])
  {
    assert ([c] + rest)[1..] == rest;
  }

  lemma TextGrows(text: string, s: string)
    requires s != ""
    ensures text + [s[0]] + s[1..] == text + s
  {
  }

  lemma {:induction false} EscapeReadsBack(s: string, tail: string, text: string)
    ensures ReadWord(Escape(s) + tail, true, text) == ReadWord(tail, true, text + s)
    decreases |s|
  {
    if s == "" {
      assert Escape(s) + tail == tail && text + s == text;
    } else {
      var rest := Escape(s[1..]) + tail;
      TextGrows(text, s);
      EscapeReadsBack(s[1..], tail, text + [s[0]]);
      if s[0] == '\'' {
        assert Escape(s) + tail == "'\\''" + rest;
        QuoteReadsBack(rest, text);
      } else {
        assert Escape(s) + tail == [s[0]] + rest;
        PlainReadsBack(s[0], rest, text);
      }
    }
  }

  // A quoted string is read back as that string, as one word, wherever it stands in a command line.
  lemma ShqRoundTrip(s: string, after: string)
    requires after == "" || Ends(after[0])
    ensures ReadWord(Shq(s) + after, false, "") == Word(s, after)
  {
    var tail := "'" + after;
    assert (Shq(s) + after)[1..] == Escape(s) + tail;
    EscapeReadsBack(s, tail, "");
    assert tail[1..] == after && "" + s == s;
  }

  // ------------------------------------------------------------------- base64

  // The alphabet of section 4 of RFC 4648.
  function Symbol(v: nat): (c: char)
    requires v < 64
    ensures c != '\n' && c != '='
  {
    if v < 26 then 'A' + v as char
    else if v < 52 then 'a' + (v - 26) as char
    else if v < 62 then '0' + (v - 52) as char
    else if v == 62 then '+' else '/'
  }

  function SymbolValue(c: char): (v: nat)
    ensures v < 64
  {
    if 'A' <= c <= 'Z' then (c - 'A') as nat
    else if 'a' <= c <= 'z' then (c - 'a') as nat + 26
    else if '0' <= c <= '9' then (c - '0') as nat + 52
    else if c == '+' then 62 else 63
  }

  // Three bytes as four symbols.
  function Group(x: byte, y: byte, z: byte): (s: string)
    ensures |s| == 4 && forall i :: 0 <= i < 4 ==> s[i] != '\n'
  {
    [Symbol(x / 4), Symbol(x % 4 * 16 + y / 16), Symbol(y % 16 * 4 + z / 64), Symbol(z % 64)]
  }

  function Encode64(b: seq<byte>): (s: string)
    ensures forall i :: 0 <= i < |s| ==> s[i] != '\n'
    decreases |b|
  {
    if |b| == 0 then ""
    else if |b| == 1 then [Symbol(b[0] / 4), Symbol(b[0] % 4 * 16), '=', '=']
    else if |b| == 2 then [Symbol(b[0] / 4), Symbol(b[0] % 4 * 16 + b[1] / 16), Symbol(b[1] % 16 * 4), '=']
    else Group(b[0], b[1], b[2]) + Encode64(b[3..])
  }

  // Buffer.from(s, "base64"): four characters at a time; padding shortens the last group.
  function Decode64(s: string): seq<byte> {
    if |s| < 4 then []
    else
      var v0, v1, v2, v3 := SymbolValue(s[0]), SymbolValue(s[1]), SymbolValue(s[2]), SymbolValue(s[3]);
      var first: seq<byte> := [v0 * 4 + v1 / 16];
      if s[2] == '=' then first
      else
        var second: seq<byte> := first + [v1 % 16 * 16 + v2 / 4];
        if s[3] == '=' then second
        else second + [v2 % 4 * 64 + v3] + Decode64(s[4..])
  }

  // Test vectors of section 10 of RFC 4648.
  lemma KnownEncodings()
    ensures Encode64([102]) == "Zg=="
    ensures Encode64([102, 111]) == "Zm8="
    ensures Encode64([102, 111, 111, 98, 97, 114]) == "Zm9vYmFy"
  {
    var foobar: seq<byte> := [102, 111, 111, 98, 97, 114];
    assert foobar[3..] == [98, 97, 114] && foobar[3..][3..] == [];
    assert Encode64([98, 97, 114]) == Group(98, 97, 114) + Encode64([]);
  }

  // The last two symbols of the alphabet.
  lemma LastSymbols()
    ensures Encode64([251, 255, 254]) == "+//+"
  {
    var last: seq<byte> := [251, 255, 254];
    assert last[3..] == [];
  }

  lemma SymbolRoundTrip(v: nat)
    requires v < 64
    ensures SymbolValue(Symbol(v)) == v
  {
  }

  lemma SextetsJoin(x: byte, y: byte, z: byte)
    ensures x / 4 * 4 + (x % 4 * 16 + y / 16) / 16 == x
    ensures (x % 4 * 16 + y / 16) % 16 * 16 + (y % 16 * 4 + z / 64) / 4 == y
    ensures (y % 16 * 4 + z / 64) % 4 * 64 + z % 64 == z
    ensures x / 4 * 4 + x % 4 * 16 / 16 == x
    ensures (x % 4 * 16 + y / 16) % 16 * 16 + y % 16 * 4 / 4 == y
  {
  }

  // One group of three bytes, then whatever follows it.
  lemma GroupRoundTrip(x: byte, y: byte, z: byte, tail: string)
    ensures Decode64(Group(x, y, z) + tail) == [x, y, z] + Decode64(tail)
  {
    var s := Group(x, y, z) + tail;
    SextetsJoin(x, y, z);
    SymbolRoundTrip(x / 4);
    SymbolRoundTrip(x % 4 * 16 + y / 16);
    SymbolRoundTrip(y % 16 * 4 + z / 64);
    SymbolRoundTrip(z % 64);
    assert s[4..] == tail;
  }

  lemma OneByteRoundTrip(x: byte)
    ensures Decode64([Symbol(x / 4), Symbol(x % 4 * 16), '=', '=']) == [x]
  {
    SextetsJoin(x, 0, 0);
    SymbolRoundTrip(x / 4);
    SymbolRoundTrip(x % 4 * 16);
  }

  lemma TwoByteRoundTrip(x: byte, y: byte)
    ensures Decode64([Symbol(x / 4), Symbol(x % 4 * 16 + y / 16), Symbol(y % 16 * 4), '=']) == [x, y]
  {
    SextetsJoin(x, y, 0);
    SymbolRoundTrip(x / 4);
    SymbolRoundTrip(x % 4 * 16 + y / 16);
    SymbolRoundTrip(y % 16 * 4);
  }

  lemma {:induction false} Base64RoundTrip(b: seq<byte>)
    ensures Decode64(Encode64(b)) == b
    decreases |b|
  {
    if |b| == 0 {
    } else if |b| == 1 {
      OneByteRoundTrip(b[0]);
      assert b == [b[0]];
    } else if |b| == 2 {
      TwoByteRoundTrip(b[0], b[1]);
      assert b == [b[0], b[1]];
    } else {
      Base64RoundTrip(b[3..]);
      GroupAhead(b, Encode64(b[3..]));
      EncodesGroup(b);
    }
  }

  lemma GroupAhead(b: seq<byte>, tail: string)
    requires |b| >= 3 && tail == Encode64(b[3..]) && Decode64(tail) == b[3..]
    ensures Decode64(Group(b[0], b[1], b[2]) + tail) == b
  {
    GroupRoundTrip(b[0], b[1], b[2], tail);
    assert [b[0], b[1], b[2]] + b[3..] == b;
  }

  lemma EncodesGroup(b: seq<byte>)
    requires |b| >= 3
    ensures Encode64(b) == Group(b[0], b[1], b[2]) + Encode64(b[3..])
  {
  }

  // -------------------------------------------------------------------- lines

  // s.split("\n")
  function Split(s: string): (lines: seq<string>)
    ensures |lines| >= 1
  {
    if s == "" then [""]
    else
      var more := Split(s[1..]);
      if s[0] == '\n' then [""] + more else [[s[0]] + more[0]] + more[1..]
  }

  // lines.join("")
  function Join(lines: seq<string>): string {
    if lines == [] then "" else lines[0] + Join(lines[1..])
  }

  predicate OneLine(s: string) { forall i :: 0 <= i < |s| ==> s[i] != '\n' }

  // base64(1) output: a newline after every `width` characters and at the end; nothing for no input.
  function Wrap(s: string, width: nat): string
    requires width > 0
    decreases |s|
  {
    if s == "" then ""
    else if |s| <= width then s + "\n"
    else s[..width] + "\n" + Wrap(s[width..], width)
  }

  lemma {:induction false} SplitLine(line: string, rest: string)
    requires OneLine(line)
    ensures Split(line + "\n" + rest) == [line] + Split(rest)
    decreases |line|
  {
    var s := line + "\n" + rest;
    if line == "" {
      assert s[1..] == rest;
    } else {
      SplitLine(line[1..], rest);
      assert s[1..] == line[1..] + "\n" + rest;
      assert ([line[1..]] + Split(rest))[1..] == Split(rest);
      assert [s[0]] + line[1..] == line;
    }
  }

  lemma JoinsLast(s: string)
    requires OneLine(s)
    ensures Join(Split(s + "\n")) == s
  {
    SplitLine(s, "");
    assert s + "\n" == s + "\n" + "";
    var lines := [s] + [""];
    assert Split(s + "\n") == lines && lines[1..] == [""] && [""][1..] == [];
    assert Join([""]) == "";
  }

  lemma JoinsNext(line: string, rest: string)
    requires OneLine(line)
    ensures Join(Split(line + "\n" + rest)) == line + Join(Split(rest))
  {
    SplitLine(line, rest);
    assert ([line] + Split(rest))[1..] == Split(rest);
  }

  lemma {:induction false} WrapJoins(s: string, width: nat)
    requires width > 0 && OneLine(s)
    ensures Join(Split(Wrap(s, width))) == s
    decreases |s|
  {
    if s == "" {
    } else if |s| <= width {
      JoinsLast(s);
    } else {
      JoinsNext(s[..width], Wrap(s[width..], width));
      WrapJoins(s[width..], width);
      assert s[..width] + s[width..] == s;
    }
  }

  // ----------------------------------------------------------------- envelope

  function TrimLeft(s: string): string {
    if s != "" && s[0] in {' ', '\t', '\r'} then TrimLeft(s[1..]) else s
  }

  // The digits at the front of s.
  function DigitRun(s: string): (d: string)
    ensures forall i :: 0 <= i < |d| ==> IsDigit(d[i])
  {
    if s != "" && IsDigit(s[0]) then [s[0]] + DigitRun(s[1..]) else ""
  }

  // Number.parseInt(s.trim(), 10), None for NaN.  What follows the digits is ignored.
  function ParseInt(s: string): Option<nat> {
    var d := DigitRun(TrimLeft(s));
    if d == "" then None else Some(ParseDecimal(d))
  }

  lemma {:induction false} AllDigits(s: string)
    requires forall i :: 0 <= i < |s| ==> IsDigit(s[i])
    ensures DigitRun(s) == s
  {
    if s != "" { AllDigits(s[1..]); }
  }

  function Blanks(n: nat): (s: string)
    ensures forall i :: 0 <= i < |s| ==> s[i] == ' '
  {
    seq(n, _ => ' ')
  }

  lemma {:induction false} ParsesDecimal(pad: nat, n: nat)
    ensures ParseInt(Blanks(pad) + Decimal(n)) == Some(n)
  {
    var s := Blanks(pad) + Decimal(n);
    if pad == 0 {
      assert s == Decimal(n);
      AllDigits(s);
      DecimalRoundTrip(n);
    } else {
      ParsesDecimal(pad - 1, n);
      assert s[1..] == Blanks(pad - 1) + Decimal(n);
    }
  }

  datatype Poll = Poll(code: Option<nat>, size: nat, chunk: seq<byte>)

  // What one poll prints: the exit code or an empty line, the size of `out` (some wc pad it), and
  // the requested slice in base64.
  function Envelope(p: Poll, pad: nat, width: nat): string
    requires width > 0
  {
    (if p.code.Some? then Decimal(p.code.value) else "") + "\n"
    + (Blanks(pad) + Decimal(p.size)) + "\n"
    + Wrap(Encode64(p.chunk), width)
  }

  datatype Reading = Reading(code: Option<nat>, size: Option<nat>, chunk: seq<byte>)

  // How tail takes that text apart again.
  function ReadEnvelope(stdout: string): Reading {
    var lines := Split(stdout);
    Reading(
      ParseInt(lines[0]),
      ParseInt(if |lines| > 1 then lines[1] else "0"),
      Decode64(Join(if |lines| > 2 then lines[2..] else [])))
  }

  lemma EnvelopeLines(first: string, second: string, rest: string)
    requires OneLine(first) && OneLine(second)
    ensures var lines := Split(first + "\n" + second + "\n" + rest);
      lines == [first, second] + Split(rest) && lines[2..] == Split(rest)
  {
    assert first + "\n" + second + "\n" + rest == first + "\n" + (second + "\n" + rest);
    SplitLine(first, second + "\n" + rest);
    SplitLine(second, rest);
    assert [first] + ([second] + Split(rest)) == [first, second] + Split(rest);
  }

  lemma FirstLineReads(code: Option<nat>)
    ensures var first := if code.Some? then Decimal(code.value) else ""; OneLine(first) && ParseInt(first) == code
  {
    if code.Some? {
      ParsesDecimal(0, code.value);
      assert Blanks(0) + Decimal(code.value) == Decimal(code.value);
    }
  }

  lemma EnvelopeRoundTrip(p: Poll, pad: nat, width: nat)
    requires width > 0
    ensures ReadEnvelope(Envelope(p, pad, width)) == Reading(p.code, Some(p.size), p.chunk)
  {
    FirstLineReads(p.code);
    ParsesDecimal(pad, p.size);
    var rest := Wrap(Encode64(p.chunk), width);
    EnvelopeLines(if p.code.Some? then Decimal(p.code.value) else "", Blanks(pad) + Decimal(p.size), rest);
    WrapJoins(Encode64(p.chunk), width);
    Base64RoundTrip(p.chunk);
  }
}
