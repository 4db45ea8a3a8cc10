/** What a chunk's size line may look like and what the decoder refuses, without
    reference to how the line is parsed (cargo/src/chunked.rs). */
module ChunkSizes {
  import opened Prelude
  import opened Chunked

  // ---- White space ------------------------------------------------------------------

  /** The Unicode characters with the property White_Space. */
  predicate WhiteSpace(c: nat) {
    || 9 <= c <= 13 || c == 0x20 || c == 0x85 || c == 0xA0 || c == 0x1680 || 0x2000 <= c <= 0x200A
    || c == 0x2028 || c == 0x2029 || c == 0x202F || c == 0x205F || c == 0x3000
  }

  /** UTF-8, for characters of the basic plane (section 3 of RFC 3629). */
  function Utf8(c: nat): (s: Bytes)
    requires c < 0x1_0000
  {
    if c < 0x80 then [c as byte]
    else if c < 0x800 then [(0xC0 + c / 64) as byte, (0x80 + c % 64) as byte]
    else [(0xE0 + c / 4096) as byte, (0x80 + c / 64 % 64) as byte, (0x80 + c % 64) as byte]
  }

  predicate AllWhite(cs: seq<nat>) {
    forall i :: 0 <= i < |cs| ==> WhiteSpace(cs[i])
  }

  function Text(cs: seq<nat>): Bytes
    requires AllWhite(cs)
  {
    if cs == [] then [] else Utf8(cs[0]) + Text(cs[1..])
  }

  ghost predicate Blank(s: Bytes) {
    exists cs :: AllWhite(cs) && s == Text(cs)
  }

  lemma {:induction false} TextAppend(cs: seq<nat>, c: nat)
    requires AllWhite(cs) && WhiteSpace(c)
    ensures Text(cs + [c]) == Text(cs) + Utf8(c)
  {
    if cs != [] {
      TextAppend(cs[1..], c);
      assert (cs + [c])[1..] == cs[1..] + [c];
      Assoc(Utf8(cs[0]), Text(cs[1..]), Utf8(c));
    }
  }

  lemma TwoBytesWhite(s: Bytes) returns (c: nat)
    requires |s| == 2 && IsSpace2(s)
    ensures WhiteSpace(c) && s == Utf8(c)
  {
    c := s[1] as nat;
  }

  lemma ThreeBytesWhite(s: Bytes) returns (c: nat)
    requires |s| == 3 && IsSpace3(s)
    ensures WhiteSpace(c) && s == Utf8(c)
  {
    if s[0] == 0xE1 {
      c := 0x1680;
    } else if s[0] == 0xE3 {
      c := 0x3000;
    } else if s[1] == 0x81 {
      c := 0x205F;
    } else {
      c := 0x2000 + (s[2] as nat - 0x80);
    }
  }

  lemma FrontIsWhite(s: Bytes) returns (c: nat)
    requires SpaceAtFront(s) > 0
    ensures WhiteSpace(c) && s == Utf8(c) + s[SpaceAtFront(s)..]
  {
    var n := SpaceAtFront(s);
    if n == 1 {
      c := s[0] as nat;
    } else if n == 2 {
      c := TwoBytesWhite(s[..2]);
    } else {
      c := ThreeBytesWhite(s[..3]);
    }
    assert s == s[..n] + s[n..];
  }

  lemma BackIsWhite(s: Bytes) returns (c: nat)
    requires SpaceAtBack(s) > 0
    ensures WhiteSpace(c) && s == s[..|s| - SpaceAtBack(s)] + Utf8(c)
  {
    var n, k := SpaceAtBack(s), |s|;
    if n == 1 {
      c := s[k - 1] as nat;
    } else if n == 2 {
      c := TwoBytesWhite(s[k - 2..]);
    } else {
      c := ThreeBytesWhite(s[k - 3..]);
    }
    assert s == s[..k - n] + s[k - n..];
  }

  lemma WhiteAtFront(c: nat, rest: Bytes)
    requires WhiteSpace(c)
    ensures SpaceAtFront(Utf8(c) + rest) == |Utf8(c)| && (Utf8(c) + rest)[|Utf8(c)|..] == rest
  {
    var s := Utf8(c) + rest;
    assert s[..|Utf8(c)|] == Utf8(c);
  }

  lemma WhiteAtBack(rest: Bytes, c: nat)
    requires WhiteSpace(c)
    ensures SpaceAtBack(rest + Utf8(c)) == |Utf8(c)| && (rest + Utf8(c))[..|rest|] == rest
  {
    var s := rest + Utf8(c);
    assert s[|rest|..] == Utf8(c);
  }

  lemma {:induction false} TrimFrontParts(s: Bytes) returns (cs: seq<nat>)
    ensures AllWhite(cs) && s == Text(cs) + TrimFront(s)
    decreases |s|
  {
    cs := [];
    if SpaceAtFront(s) > 0 {
      var c := FrontIsWhite(s);
      var more := TrimFrontParts(s[SpaceAtFront(s)..]);
      cs := [c] + more;
      assert cs[1..] == more;
      Assoc(Utf8(c), Text(more), TrimFront(s));
    }
  }

  lemma {:induction false} TrimBackParts(s: Bytes) returns (cs: seq<nat>)
    ensures AllWhite(cs) && s == TrimBack(s) + Text(cs)
    decreases |s|
  {
    cs := [];
    if SpaceAtBack(s) > 0 {
      var c := BackIsWhite(s);
      var more := TrimBackParts(s[..|s| - SpaceAtBack(s)]);
      cs := more + [c];
      BackJoins(TrimBack(s), more, c);
    }
  }

  lemma BackJoins(core: Bytes, cs: seq<nat>, c: nat)
    requires AllWhite(cs) && WhiteSpace(c)
    ensures AllWhite(cs + [c]) && core + Text(cs) + Utf8(c) == core + Text(cs + [c])
  {
    TextAppend(cs, c);
    Assoc(core, Text(cs), Utf8(c));
  }

  lemma {:induction false} TrimFrontOf(cs: seq<nat>, core: Bytes)
    requires AllWhite(cs) && SpaceAtFront(core) == 0
    ensures TrimFront(Text(cs) + core) == core
  {
    if cs == [] {
      assert Text(cs) + core == core;
    } else {
      TrimFrontOf(cs[1..], core);
      Assoc(Utf8(cs[0]), Text(cs[1..]), core);
      WhiteAtFront(cs[0], Text(cs[1..]) + core);
    }
  }

  lemma {:induction false} TrimBackOf(core: Bytes, cs: seq<nat>)
    requires AllWhite(cs) && SpaceAtBack(core) == 0
    ensures TrimBack(core + Text(cs)) == core
    decreases |cs|
  {
    if cs == [] {
      assert core + Text(cs) == core;
    } else {
      var front, c := cs[..|cs| - 1], cs[|cs| - 1];
      assert cs == front + [c];
      TextAppend(front, c);
      TrimBackOf(core, front);
      Assoc(core, Text(front), Utf8(c));
      WhiteAtBack(core + Text(front), c);
    }
  }

  // ---- Digits ------------------------------------------------------------------------

  /** The characters 0 to 9 and a to f. */
  const DIGITS: Bytes :=
    [0x30, 0x31, 0x32, 0x33, 0x34, 0x35, 0x36, 0x37, 0x38, 0x39, 0x61, 0x62, 0x63, 0x64, 0x65, 0x66]

  function LowerCase(b: byte): byte {
    if 0x41 <= b <= 0x5A then b + 0x20 else b
  }

  /** `b` is the digit `d` in either case. */
  predicate Stands(b: byte, d: nat) {
    d < 16 && LowerCase(b) == DIGITS[d]
  }

  function ValueOf(ds: seq<nat>): nat {
    if ds == [] then 0 else 16 * ValueOf(ds[..|ds| - 1]) + ds[|ds| - 1]
  }

  predicate StandFor(s: Bytes, ds: seq<nat>) {
    |ds| == |s| && forall i :: 0 <= i < |s| ==> Stands(s[i], ds[i])
  }

  /** `s` is the number `n` written in base 16, in any mixture of cases. */
  ghost predicate Spells(s: Bytes, n: nat) {
    exists ds :: StandFor(s, ds) && n == ValueOf(ds)
  }

  lemma HexDigitIs(b: byte, d: nat)
    ensures HexDigit(b) == Some(d) <==> Stands(b, d)
  {
  }

  lemma {:induction false} HexValueParts(s: Bytes) returns (ds: seq<nat>)
    requires HexValue(s).Some?
    ensures StandFor(s, ds) && HexValue(s) == Some(ValueOf(ds))
  {
    ds := [];
    if s != [] {
      var front, d := s[..|s| - 1], HexDigit(s[|s| - 1]).value;
      var more := HexValueParts(front);
      HexDigitIs(s[|s| - 1], d);
      ds := more + [d];
      assert ds[..|ds| - 1] == more;
      forall i | 0 <= i < |s| ensures Stands(s[i], ds[i]) {
        if i < |s| - 1 {
          assert s[i] == front[i];
        }
      }
    }
  }

  lemma {:induction false} HexValueOf(s: Bytes, ds: seq<nat>)
    requires StandFor(s, ds)
    ensures HexValue(s) == Some(ValueOf(ds))
  {
    if s != [] {
      HexValueOf(s[..|s| - 1], ds[..|ds| - 1]);
      HexDigitIs(s[|s| - 1], ds[|ds| - 1]);
    }
  }

  lemma HexValueIs(s: Bytes, n: nat)
    ensures HexValue(s) == Some(n) <==> Spells(s, n)
  {
    if HexValue(s) == Some(n) {
      var ds := HexValueParts(s);
    }
    if Spells(s, n) {
      var ds :| StandFor(s, ds) && n == ValueOf(ds);
      HexValueOf(s, ds);
    }
  }

  // ---- The size line -------------------------------------------------------------------

  /** A size line for `n`: digits in any case, white space and a plus before them and
      white space after them, or not, and then nothing or an extension. */
  ghost predicate Announces(line: Bytes, n: nat) {
    exists a, h, b, ext :: Layout(line, a, h, b, ext) && Number(h, n)
  }

  ghost predicate Layout(line: Bytes, a: Bytes, h: Bytes, b: Bytes, ext: Bytes) {
    line == a + h + b + ext && Blank(a) && Blank(b) && (ext == [] || ext[0] == 0x3B)
  }

  /** At least one digit, a plus in front or not, and within 64 bits. */
  ghost predicate Number(h: Bytes, n: nat) {
    var digits := if h != [] && h[0] == 0x2B then h[1..] else h;
    digits != [] && Spells(digits, n) && n < 0x1_0000_0000_0000_0000
  }

  lemma DigitBytes(h: Bytes, n: nat)
    requires Spells(h, n)
    ensures forall i :: 0 <= i < |h| ==> 0x30 <= h[i] <= 0x39 || 0x41 <= h[i] <= 0x46 || 0x61 <= h[i] <= 0x66
  {
    var ds :| StandFor(h, ds) && n == ValueOf(ds);
    forall i | 0 <= i < |h| ensures 0x30 <= h[i] <= 0x39 || 0x41 <= h[i] <= 0x46 || 0x61 <= h[i] <= 0x66 {
      assert Stands(h[i], ds[i]);
      HexDigitIs(h[i], ds[i]);
    }
  }

  lemma NumberIs(h: Bytes, n: nat)
    ensures ParseHex(h) == Some(n) <==> Number(h, n)
  {
    var digits := if h != [] && h[0] == 0x2B then h[1..] else h;
    HexValueIs(digits, n);
    if h == [0x2B] {
      assert HexDigit(h[0]) == None && ParseHex(h) == None;
    }
    if HexValue(digits).Some? {
      HexValueIs(digits, HexValue(digits).value);
    }
  }

  predicate NumberByte(b: byte) {
    b == 0x2B || 0x30 <= b <= 0x39 || 0x41 <= b <= 0x46 || 0x61 <= b <= 0x66
  }

  lemma NumberBytes(h: Bytes, n: nat)
    requires Number(h, n)
    ensures h != [] && forall i :: 0 <= i < |h| ==> NumberByte(h[i])
  {
    if h[0] == 0x2B {
      DigitBytes(h[1..], n);
      forall i | 0 <= i < |h| ensures NumberByte(h[i]) {
        if i > 0 {
          assert h[i] == h[1..][i - 1];
        }
      }
    } else {
      DigitBytes(h, n);
    }
  }

  /** Neither a number nor anything that starts with one has white space in front,
      and none has any behind. */
  lemma NoSpaceAround(h: Bytes, rest: Bytes)
    requires h != [] && NumberByte(h[0]) && NumberByte(h[|h| - 1])
    ensures SpaceAtFront(h + rest) == 0 && SpaceAtBack(h) == 0
  {
    assert (h + rest)[0] == h[0];
  }

  lemma {:induction false} NoSemicolonInText(cs: seq<nat>)
    requires AllWhite(cs)
    ensures SEMICOLON !in Text(cs)
  {
    if cs != [] {
      NoSemicolonInText(cs[1..]);
      assert forall b :: b in Utf8(cs[0]) ==> b != SEMICOLON;
    }
  }

  lemma ExtensionDropped(hex: Bytes, ext: Bytes)
    requires SEMICOLON !in hex && (ext == [] || ext[0] == SEMICOLON)
    ensures SizeOf(hex + ext) == ParseHex(TrimBack(TrimFront(hex)))
  {
    var line := hex + ext;
    forall i | 0 <= i < |hex| ensures line[i] != SEMICOLON {
      assert line[i] == hex[i] && hex[i] in hex;
    }
    if ext == [] {
      assert line == hex;
    } else {
      assert line[|hex|] == SEMICOLON;
      assert FindFrom(line, SEMICOLON, 0) == Some(|hex|);
      assert line[..|hex|] == hex;
    }
  }

  lemma LineOfParts(line: Bytes, a: Bytes, h: Bytes, b: Bytes, ext: Bytes, n: nat)
    requires Layout(line, a, h, b, ext) && Number(h, n)
    ensures SizeOf(line) == Some(n)
  {
    var cs :| AllWhite(cs) && a == Text(cs);
    var ds :| AllWhite(ds) && b == Text(ds);
    NumberBytes(h, n);
    NoSpaceAround(h, b);
    NoSemicolonInText(cs);
    NoSemicolonInText(ds);
    ExtensionDropped(a + h + b, ext);
    Assoc(a, h, b);
    TrimFrontOf(cs, h + b);
    TrimBackOf(h, ds);
    NumberIs(h, n);
  }

  lemma LineHasParts(line: Bytes) returns (a: Bytes, h: Bytes, b: Bytes, ext: Bytes)
    requires SizeOf(line).Some?
    ensures Layout(line, a, h, b, ext) && Number(h, SizeOf(line).value)
  {
    var at := FindFrom(line, SEMICOLON, 0);
    var hex := if at.Some? then line[..at.value] else line;
    ext := if at.Some? then line[at.value..] else [];
    assert line == hex + ext;
    var cs := TrimFrontParts(hex);
    var ds := TrimBackParts(TrimFront(hex));
    a, h, b := Text(cs), TrimBack(TrimFront(hex)), Text(ds);
    Assoc(a, h, b);
    NumberIs(h, SizeOf(line).value);
  }

  /** The size a line announces: the decoder takes exactly these lines, for exactly
      these numbers. */
  lemma SizeOfIs(line: Bytes, n: nat)
    ensures SizeOf(line) == Some(n) <==> Announces(line, n)
  {
    if SizeOf(line) == Some(n) {
      var a, h, b, ext := LineHasParts(line);
    }
    if Announces(line, n) {
      var a, h, b, ext :| Layout(line, a, h, b, ext) && Number(h, n);
      LineOfParts(line, a, h, b, ext, n);
    }
  }

  /** A chunk of ten bytes under an upper-case size line decodes. */
  lemma UpperCaseSize(data: Bytes)
    requires |data| == 10
    ensures Run(Size, Encode([Chunk([0x41], data)], [0x30]) + CRLF) == Progress(data, Done, [], false)
  {
    var c := Chunk([0x41], data);
    assert [10][..0] == [] && [0][..0] == [];
    assert StandFor([0x41], [10]) && ValueOf([10]) == 10;
    assert StandFor([0x30], [0]) && ValueOf([0]) == 0;
    SimpleLine([0x41], 10);
    SimpleLine([0x30], 0);
    assert Payload([c]) == data;
    DecodesEncoding([c], [0x30], CRLF);
  }

  lemma SimpleLine(h: Bytes, n: nat)
    requires |h| == 1 && Spells(h, n) && n < 16
    ensures LineFor(h, n)
  {
    DigitBytes(h, n);
    assert Text([]) == [];
    assert Blank([]);
    assert h == [] + h + [] + [];
    assert Layout(h, [], h, [], []) && Number(h, n);
    SizeOfIs(h, n);
    assert CrlfAt(h + CRLF, 1);
  }

  // ---- What is refused ---------------------------------------------------------------------

  function EncodeChunks(chunks: seq<Chunk>): Bytes {
    if chunks == [] then [] else EncodeChunk(chunks[0]) + EncodeChunks(chunks[1..])
  }

  /** A line is there, and announces no size. */
  ghost predicate BadLine(s: Bytes) {
    exists nl: nat :: FirstCrlfAt(s, nl) && forall n :: !Announces(s[..nl], n)
  }

  /** A payload of the size announced is there, and two more bytes that are not CRLF. */
  ghost predicate BadEnd(s: Bytes) {
    exists c: Chunk, tail: Bytes :: Legal(c) && EndsBadly(s, c, tail)
  }

  predicate EndsBadly(s: Bytes, c: Chunk, tail: Bytes) {
    s == c.line + (CRLF + (c.data + tail)) && |tail| >= 2 && tail[..2] != CRLF
  }

  /** The buffer consists of chunks, and then something that cannot be one. */
  ghost predicate Broken(buf: Bytes) {
    exists chunks: seq<Chunk>, rest: Bytes :: BrokenAfter(buf, chunks, rest)
  }

  ghost predicate BrokenAfter(buf: Bytes, chunks: seq<Chunk>, rest: Bytes) {
    AllLegal(chunks) && buf == EncodeChunks(chunks) + rest && (BadLine(rest) || BadEnd(rest))
  }

  lemma BadLineIs(s: Bytes)
    ensures BadLine(s) <==> FindCrlf(s).Some? && SizeOf(s[..FindCrlf(s).value]).None?
  {
    if nl: nat :| FirstCrlfAt(s, nl) && forall n :: !Announces(s[..nl], n) {
      FindCrlfIs(s, nl);
      if SizeOf(s[..nl]).Some? {
        SizeOfIs(s[..nl], SizeOf(s[..nl]).value);
      }
    }
    if FindCrlf(s).Some? && SizeOf(s[..FindCrlf(s).value]).None? {
      var nl := FindCrlf(s).value;
      forall n ensures !Announces(s[..nl], n) {
        SizeOfIs(s[..nl], n);
      }
    }
  }

  lemma BadLineFails(s: Bytes)
    requires BadLine(s)
    ensures Run(Size, s).failed
  {
    BadLineIs(s);
  }

  lemma BadEndFails(s: Bytes)
    requires BadEnd(s)
    ensures Run(Size, s).failed
  {
    var c: Chunk, tail: Bytes :| Legal(c) && EndsBadly(s, c, tail);
    RunLine(c.line, |c.data|, c.data + tail);
    RunBody(c.data, tail);
  }

  lemma {:induction false} ChunksThenBad(chunks: seq<Chunk>, rest: Bytes)
    requires AllLegal(chunks) && Run(Size, rest).failed
    ensures Run(Size, EncodeChunks(chunks) + rest).failed
  {
    if chunks == [] {
      assert EncodeChunks(chunks) + rest == rest;
    } else {
      ChunksThenBad(chunks[1..], rest);
      Assoc(EncodeChunk(chunks[0]), EncodeChunks(chunks[1..]), rest);
      RunChunk(chunks[0], EncodeChunks(chunks[1..]) + rest);
    }
  }

  /** A line of a number greater than zero, and what follows it. */
  lemma FailsPastLine(buf: Bytes) returns (line: Bytes, n: nat, rest: Bytes)
    requires Run(Size, buf).failed && !BadLine(buf)
    ensures LineFor(line, n) && n > 0 && buf == line + (CRLF + rest) && Run(Body(n), rest).failed
  {
    BadLineIs(buf);
    var nl := FindCrlf(buf).value;
    line, n, rest := buf[..nl], SizeOf(buf[..nl]).value, buf[nl + 2..];
    LineFound(buf, nl);
  }

  /** A whole payload, and two bytes behind it. */
  lemma FailsPastBody(n: nat, buf: Bytes) returns (data: Bytes, tail: Bytes)
    requires n > 0 && Run(Body(n), buf).failed
    ensures |data| == n && buf == data + tail && |tail| >= 2 && Run(CrLf, tail).failed
  {
    RunStaysSane(Body(n), buf);
    if |buf| < n {
      BodyTooShort(n, buf);
    }
    data, tail := buf[..n], buf[n..];
    assert buf == data + tail;
    RunBody(data, tail);
  }

  lemma EncodeOneMore(c: Chunk, chunks: seq<Chunk>, rest: Bytes)
    ensures EncodeChunks([c] + chunks) + rest == c.line + (CRLF + (c.data + (CRLF + (EncodeChunks(chunks) + rest))))
  {
    assert ([c] + chunks)[1..] == chunks;
    assert EncodeChunk(c) + (EncodeChunks(chunks) + rest) ==
      c.line + (CRLF + (c.data + (CRLF + (EncodeChunks(chunks) + rest))));
  }

  lemma FailsPastChunk(buf: Bytes) returns (c: Chunk, tail: Bytes)
    requires Run(Size, buf).failed && !BadLine(buf)
    ensures Legal(c) && buf == c.line + (CRLF + (c.data + tail)) && |tail| >= 2 && Run(CrLf, tail).failed
  {
    var line, n, behind := FailsPastLine(buf);
    var data;
    data, tail := FailsPastBody(n, behind);
    c := Chunk(line, data);
  }

  lemma BrokenBehind(buf: Bytes, c: Chunk, behind: Bytes, chunks: seq<Chunk>, rest: Bytes)
    requires Legal(c) && buf == c.line + (CRLF + (c.data + (CRLF + behind))) && BrokenAfter(behind, chunks, rest)
    ensures BrokenAfter(buf, [c] + chunks, rest)
  {
    EncodeOneMore(c, chunks, rest);
  }

  lemma BrokenHere(buf: Bytes)
    requires BadLine(buf) || BadEnd(buf)
    ensures BrokenAfter(buf, [], buf)
  {
    assert EncodeChunks([]) + buf == buf;
  }

  lemma {:induction false} FailureIsBroken(buf: Bytes) returns (chunks: seq<Chunk>, rest: Bytes)
    requires Run(Size, buf).failed
    ensures BrokenAfter(buf, chunks, rest)
    decreases |buf|
  {
    if BadLine(buf) {
      chunks, rest := [], buf;
      BrokenHere(buf);
      return;
    }
    var c, tail := FailsPastChunk(buf);
    if tail[..2] != CRLF {
      chunks, rest := [], buf;
      assert EndsBadly(buf, c, tail);
      BrokenHere(buf);
    } else {
      var behind, more := tail[2..], [];
      assert tail == CRLF + behind;
      RunCrLf(behind);
      more, rest := FailureIsBroken(behind);
      BrokenBehind(buf, c, behind, more, rest);
      chunks := [c] + more;
    }
  }

  /** However the bytes arrive, they are refused exactly if chunks are followed by a
      line that announces no size, or by a payload that does not end with CRLF. */
  lemma RefusedExactly(pieces: seq<Bytes>)
    requires pieces != []
    ensures PushAll(Size, [], pieces).failed <==> Broken(Flat(pieces))
  {
    var buf := Flat(pieces);
    SplitIndependence(Size, [], pieces);
    assert [] + buf == buf;
    if Run(Size, buf).failed {
      var chunks, rest := FailureIsBroken(buf);
    }
    if Broken(buf) {
      var chunks: seq<Chunk>, rest: Bytes :| BrokenAfter(buf, chunks, rest);
      if BadLine(rest) {
        BadLineFails(rest);
      } else {
        BadEndFails(rest);
      }
      ChunksThenBad(chunks, rest);
    }
  }
}
