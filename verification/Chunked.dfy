/** The incremental decoder for HTTP/1.1 chunked bodies (cargo/src/chunked.rs;
    section 7.1 of RFC 9112). */
module Chunked {
  import opened Prelude

  const CR: byte := 0x0D
  const LF: byte := 0x0A
  const SEMICOLON: byte := 0x3B
  const CRLF: Bytes := [CR, LF]

  // ---- The size line ------------------------------------------------------

  predicate CrlfAt(s: Bytes, i: nat) {
    i + 1 < |s| && s[i] == CR && s[i + 1] == LF
  }

  predicate FirstCrlfAt(s: Bytes, i: nat) {
    CrlfAt(s, i) && forall k: nat :: k < i ==> !CrlfAt(s, k)
  }

  /** Position of the first CRLF at or after `from`. */
  function FindCrlfFrom(buf: Bytes, from: nat): (r: Option<nat>)
    ensures r.Some? ==>
      from <= r.value && CrlfAt(buf, r.value) && forall i: nat :: from <= i < r.value ==> !CrlfAt(buf, i)
    ensures r.None? ==> forall i: nat :: from <= i ==> !CrlfAt(buf, i)
    decreases |buf| - from
  {
    if from + 1 >= |buf| then None
    else if CrlfAt(buf, from) then Some(from)
    else FindCrlfFrom(buf, from + 1)
  }

  function FindCrlf(buf: Bytes): (r: Option<nat>)
    ensures r.Some? ==> FirstCrlfAt(buf, r.value)
    ensures r.None? ==> forall i: nat :: !CrlfAt(buf, i)
  {
    FindCrlfFrom(buf, 0)
  }

  lemma FindCrlfIs(buf: Bytes, i: nat)
    requires FirstCrlfAt(buf, i)
    ensures FindCrlf(buf) == Some(i)
  {
  }

  /** Byte length of the white-space character at the front (Unicode White_Space
      in UTF-8), or 0. */
  function SpaceAtFront(s: Bytes): (n: nat)
    ensures n <= |s|
  {
    if |s| >= 1 && (0x09 <= s[0] <= 0x0D || s[0] == 0x20) then 1
    else if |s| >= 2 && IsSpace2(s[..2]) then 2
    else if |s| >= 3 && IsSpace3(s[..3]) then 3
    else 0
  }

  function SpaceAtBack(s: Bytes): (n: nat)
    ensures n <= |s|
  {
    var k := |s|;
    if k >= 1 && (0x09 <= s[k - 1] <= 0x0D || s[k - 1] == 0x20) then 1
    else if k >= 2 && IsSpace2(s[k - 2..]) then 2
    else if k >= 3 && IsSpace3(s[k - 3..]) then 3
    else 0
  }

  predicate IsSpace2(c: Bytes)
    requires |c| == 2
  {
    c[0] == 0xC2 && (c[1] == 0x85 || c[1] == 0xA0)
  }

  predicate IsSpace3(c: Bytes)
    requires |c| == 3
  {
    || (c[0] == 0xE1 && c[1] == 0x9A && c[2] == 0x80)
    || (c[0] == 0xE2 && c[1] == 0x80 && (0x80 <= c[2] <= 0x8A || c[2] == 0xA8 || c[2] == 0xA9 || c[2] == 0xAF))
    || (c[0] == 0xE2 && c[1] == 0x81 && c[2] == 0x9F)
    || (c[0] == 0xE3 && c[1] == 0x80 && c[2] == 0x80)
  }

  function TrimFront(s: Bytes): Bytes {
    if SpaceAtFront(s) == 0 then s else TrimFront(s[SpaceAtFront(s)..])
  }

  function TrimBack(s: Bytes): Bytes {
    if SpaceAtBack(s) == 0 then s else TrimBack(s[..|s| - SpaceAtBack(s)])
  }

  function HexDigit(b: byte): Option<nat> {
    if 0x30 <= b <= 0x39 then Some(b as int - 0x30)
    else if 0x41 <= b <= 0x46 then Some(b as int - 0x41 + 10)
    else if 0x61 <= b <= 0x66 then Some(b as int - 0x61 + 10)
    else None
  }

  function HexValue(s: Bytes): Option<nat> {
    if s == [] then Some(0)
    else
      match (HexValue(s[..|s| - 1]), HexDigit(s[|s| - 1]))
      case (Some(v), Some(d)) => Some(v * 16 + d)
      case _ => None
  }

  /** `usize::from_str_radix(_, 16)` on a 64-bit target. */
  function ParseHex(s: Bytes): Option<nat> {
    var digits := if |s| > 1 && s[0] == 0x2B then s[1..] else s;
    if digits == [] then None
    else match HexValue(digits)
      case None => None
      case Some(v) => if v < 0x1_0000_0000_0000_0000 then Some(v) else None
  }

  /** The chunk size announced by one line: extension dropped, trimmed, hex. */
  function SizeOf(line: Bytes): Option<nat> {
    var hex := match FindFrom(line, SEMICOLON, 0) case Some(i) => line[..i] case None => line;
    ParseHex(TrimBack(TrimFront(hex)))
  }

  // ---- What a buffer means ------------------------------------------------

  datatype Mode = Size | Body(remaining: nat) | CrLf | Done

  /** Decoding as far as the bytes allow: payload found, final mode, bytes kept,
      and whether a framing error stopped it. */
  datatype Progress = Progress(out: Bytes, mode: Mode, buf: Bytes, failed: bool)

  function Emit(prefix: Bytes, p: Progress): Progress {
    p.(out := prefix + p.out)
  }

  function Rank(mode: Mode): nat {
    if mode.Body? then 1 else 0
  }

  function Run(mode: Mode, buf: Bytes): (p: Progress)
    decreases |buf|, Rank(mode)
  {
    match mode
    case Size => (
      match FindCrlf(buf)
      case None => Progress([], Size, buf, false)
      case Some(nl) =>
        match SizeOf(buf[..nl])
        case None => Progress([], Done, buf, true)
        case Some(n) =>
          if n == 0 then Progress([], Done, [], false) else Run(Body(n), buf[nl + 2..])
    )
    case Body(remaining) =>
      if remaining == 0 then Run(CrLf, buf)
      else if buf == [] then Progress([], mode, buf, false)
      else
        var take := if remaining < |buf| then remaining else |buf|;
        Emit(buf[..take], Run(if take == remaining then CrLf else Body(remaining - take), buf[take..]))
    case CrLf =>
      if |buf| < 2 then Progress([], CrLf, buf, false)
      else if buf[..2] != CRLF then Progress([], Done, buf, true)
      else Run(Size, buf[2..])
    case Done => Progress([], Done, buf, false)
  }

  predicate Sane(mode: Mode) {
    mode.Body? ==> mode.remaining > 0
  }

  lemma {:induction false} RunStaysSane(mode: Mode, buf: Bytes)
    requires Sane(mode)
    ensures Sane(Run(mode, buf).mode)
    ensures Run(mode, buf).failed ==> Run(mode, buf).mode == Done
    decreases |buf|, Rank(mode)
  {
    match mode
    case Size =>
      var nl := FindCrlf(buf);
      if nl.Some? && SizeOf(buf[..nl.value]).Some? && SizeOf(buf[..nl.value]).value != 0 {
        RunStaysSane(Body(SizeOf(buf[..nl.value]).value), buf[nl.value + 2..]);
      }
    case Body(remaining) =>
      if buf != [] {
        var take := if remaining < |buf| then remaining else |buf|;
        RunStaysSane(if take == remaining then CrLf else Body(remaining - take), buf[take..]);
      }
    case CrLf =>
      if |buf| >= 2 && buf[..2] == CRLF {
        RunStaysSane(Size, buf[2..]);
      }
    case Done =>
  }

  lemma FindCrlfExtends(buf: Bytes, i: nat, more: Bytes)
    requires FirstCrlfAt(buf, i)
    ensures FindCrlf(buf + more) == Some(i)
  {
    forall k: nat | k <= i ensures CrlfAt(buf + more, k) == CrlfAt(buf, k) {
    }
    FindCrlfIs(buf + more, i);
  }

  /** Outputs, mode and verdict agree; once the body has ended the kept bytes are
      irrelevant, and the source treats them differently. */
  predicate Agree(p: Progress, q: Progress) {
    && p.out == q.out && p.mode == q.mode && p.failed == q.failed
    && (p.mode != Done ==> p.buf == q.buf)
  }

  /** What is left to decode after `p`, once `more` arrives. */
  function Continue(p: Progress, more: Bytes): Progress {
    if p.failed then p else Emit(p.out, Run(p.mode, p.buf + more))
  }

  lemma {:induction false} SplitOnce(mode: Mode, buf: Bytes, more: Bytes)
    requires Sane(mode)
    ensures Agree(Run(mode, buf + more), Continue(Run(mode, buf), more))
    decreases |buf|, Rank(mode)
  {
    var all := buf + more;
    match mode
    case Size =>
      var nl := FindCrlf(buf);
      if nl.Some? {
        var i := nl.value;
        FindCrlfExtends(buf, i, more);
        assert all[..i] == buf[..i] && all[i + 2..] == buf[i + 2..] + more;
        if SizeOf(buf[..i]).Some? && SizeOf(buf[..i]).value != 0 {
          SplitOnce(Body(SizeOf(buf[..i]).value), buf[i + 2..], more);
        }
      }
    case Body(remaining) => SplitBody(remaining, buf, more);
    case CrLf =>
      if |buf| >= 2 {
        assert all[..2] == buf[..2] && all[2..] == buf[2..] + more;
        if buf[..2] == CRLF {
          SplitOnce(Size, buf[2..], more);
        }
      }
    case Done =>
  }

  lemma {:induction false} SplitBody(remaining: nat, buf: Bytes, more: Bytes)
    requires remaining > 0
    ensures Agree(Run(Body(remaining), buf + more), Continue(Run(Body(remaining), buf), more))
    decreases |buf|, 0
  {
    var all := buf + more;
    if buf == [] {
      assert all == more;
      assert [] + Run(Body(remaining), all).out == Run(Body(remaining), all).out;
    } else if remaining <= |buf| {
      assert all[..remaining] == buf[..remaining] && all[remaining..] == buf[remaining..] + more;
      SplitOnce(CrLf, buf[remaining..], more);
      var q := Run(CrLf, buf[remaining..]);
      if !q.failed {
        Assoc(buf[..remaining], q.out, Run(q.mode, q.buf + more).out);
      }
    } else {
      var left := remaining - |buf|;
      assert buf[..|buf|] == buf && buf[|buf|..] == [] && buf + [] == buf;
      assert Run(Body(remaining), buf) == Progress(buf, Body(left), [], false);
      assert [] + more == more;
      BodyTakesAll(remaining, buf, more);
    }
  }

  lemma BodyTakesAll(remaining: nat, buf: Bytes, more: Bytes)
    requires 0 < |buf| < remaining
    ensures Run(Body(remaining), buf + more) == Emit(buf, Run(Body(remaining - |buf|), more))
  {
    var all, left := buf + more, remaining - |buf|;
    if more == [] {
      assert all == buf && all[..|buf|] == buf && all[|buf|..] == [];
    } else {
      var take := if left < |more| then left else |more|;
      assert all[..|buf| + take] == buf + more[..take] && all[|buf| + take..] == more[take..];
      var rest := Run(if take == left then CrLf else Body(left - take), more[take..]);
      Assoc(buf, more[..take], rest.out);
    }
  }

  // ---- Any number of pushes -----------------------------------------------

  /** Consecutive pushes: their outputs concatenated and the state they leave. It
      stops at the first error, and the push that failed returns nothing. */
  function PushAll(mode: Mode, buf: Bytes, pieces: seq<Bytes>): Progress
    decreases pieces
  {
    if pieces == [] then Progress([], mode, buf, false)
    else
      var p := Run(mode, buf + pieces[0]);
      if p.failed then p.(out := []) else Emit(p.out, PushAll(p.mode, p.buf, pieces[1..]))
  }

  /** However the bytes are split, the result is that of one push of all of them:
      an error on one side exactly when on the other, and without one the same
      output, mode, done flag and (before the end of the body) kept bytes. What
      was handed out before an error is a prefix of the payload up to it. */
  lemma {:induction false} SplitIndependence(mode: Mode, buf: Bytes, pieces: seq<Bytes>)
    requires Sane(mode) && pieces != []
    ensures var one, many := Run(mode, buf + Flat(pieces)), PushAll(mode, buf, pieces);
      && many.failed == one.failed && many.out <= one.out
      && (!one.failed ==> Agree(one, many))
    decreases |pieces|
  {
    var first, rest := pieces[0], Flat(pieces[1..]);
    Assoc(buf, first, rest);
    SplitOnce(mode, buf + first, rest);
    var p := Run(mode, buf + first);
    RunStaysSane(mode, buf + first);
    if |pieces| == 1 {
      assert rest == [] && first + rest == first;
      assert p.out + [] == p.out;
    } else if !p.failed {
      SplitIndependence(p.mode, p.buf, pieces[1..]);
    }
  }

  // ---- The encoding -------------------------------------------------------

  /** One chunk on the wire: any accepted size line, then the payload. */
  datatype Chunk = Chunk(line: Bytes, data: Bytes)

  predicate LineFor(line: Bytes, n: nat) {
    FirstCrlfAt(line + CRLF, |line|) && SizeOf(line) == Some(n)
  }

  predicate Legal(c: Chunk) {
    c.data != [] && LineFor(c.line, |c.data|)
  }

  predicate AllLegal(chunks: seq<Chunk>) {
    forall i :: 0 <= i < |chunks| ==> Legal(chunks[i])
  }

  function EncodeChunk(c: Chunk): Bytes {
    c.line + (CRLF + (c.data + CRLF))
  }

  function Encode(chunks: seq<Chunk>, last: Bytes): Bytes {
    if chunks == [] then last + CRLF else EncodeChunk(chunks[0]) + Encode(chunks[1..], last)
  }

  function Payload(chunks: seq<Chunk>): Bytes {
    if chunks == [] then [] else chunks[0].data + Payload(chunks[1..])
  }

  /** The payload bytes among the first `k` bytes of one encoded chunk. */
  function WithinChunk(c: Chunk, k: nat): Bytes {
    var start := |c.line| + 2;
    if k <= start then []
    else if k <= start + |c.data| then c.data[..k - start]
    else c.data
  }

  /** The payload bytes that lie within the first `k` bytes of the encoding. */
  function PayloadWithin(chunks: seq<Chunk>, k: nat): Bytes {
    if chunks == [] then []
    else
      var size := |chunks[0].line| + |chunks[0].data| + 4;
      if k < size then WithinChunk(chunks[0], k)
      else chunks[0].data + PayloadWithin(chunks[1..], k - size)
  }

  /** Where the first `k` bytes of the encoding stop: inside a size line (not at
      its start), inside a payload, or at an acceptable place. */
  datatype Place = InLine | InPayload | Boundary | AfterLast

  function PlaceOf(chunks: seq<Chunk>, last: Bytes, k: nat): Place {
    if chunks == [] then
      if k == 0 then Boundary else if k < |last| + 2 then InLine else AfterLast
    else
      var c := chunks[0];
      var start, end := |c.line| + 2, |c.line| + 2 + |c.data|;
      if k == 0 then Boundary
      else if k < start then InLine
      else if k < end then InPayload
      else if k < end + 2 then Boundary
      else PlaceOf(chunks[1..], last, k - end - 2)
  }

  lemma RunLine(line: Bytes, n: nat, rest: Bytes)
    requires LineFor(line, n)
    ensures Run(Size, line + (CRLF + rest)) == if n == 0 then Progress([], Done, [], false) else Run(Body(n), rest)
  {
    var buf := line + (CRLF + rest);
    assert buf == line + CRLF + rest;
    FindCrlfExtends(line + CRLF, |line|, rest);
    assert buf[..|line|] == line && buf[|line| + 2..] == rest;
  }

  lemma RunBody(data: Bytes, rest: Bytes)
    requires data != []
    ensures Run(Body(|data|), data + rest) == Emit(data, Run(CrLf, rest))
  {
    assert (data + rest)[..|data|] == data && (data + rest)[|data|..] == rest;
  }

  lemma RunCrLf(rest: Bytes)
    ensures Run(CrLf, CRLF + rest) == Run(Size, rest)
  {
    assert (CRLF + rest)[..2] == CRLF && (CRLF + rest)[2..] == rest;
  }

  lemma NoCrlfInCut(line: Bytes, k: nat)
    requires FirstCrlfAt(line + CRLF, |line|) && k < |line| + 2
    ensures FindCrlf((line + CRLF)[..k]) == None
  {
    var whole := line + CRLF;
    forall i: nat ensures !CrlfAt(whole[..k], i) {
      if i + 1 < k {
        assert !CrlfAt(whole, i);
      }
    }
  }

  lemma LineCut(line: Bytes, k: nat)
    requires FirstCrlfAt(line + CRLF, |line|) && k < |line| + 2
    ensures Run(Size, (line + CRLF)[..k]) == Progress([], Size, (line + CRLF)[..k], false)
  {
    NoCrlfInCut(line, k);
  }

  /** Decoding one whole chunk at the front. */
  lemma RunChunk(c: Chunk, rest: Bytes)
    requires Legal(c)
    ensures Run(Size, EncodeChunk(c) + rest) == Emit(c.data, Run(Size, rest))
  {
    var tail := CRLF + rest;
    assert EncodeChunk(c) + rest == c.line + (CRLF + (c.data + tail));
    RunLine(c.line, |c.data|, c.data + tail);
    RunBody(c.data, tail);
    RunCrLf(rest);
  }

  lemma RunCutBody(data: Bytes, j: nat)
    requires data != [] && j < |data| + 2
    ensures Run(Body(|data|), (data + CRLF)[..j]) ==
      if j < |data| then Progress(data[..j], Body(|data| - j), [], false)
      else Progress(data, CrLf, CRLF[..j - |data|], false)
  {
    var body := (data + CRLF)[..j];
    if j < |data| {
      assert body == data[..j];
      if j > 0 {
        BodyTakesAll(|data|, body, []);
        assert body + [] == body;
      }
    } else {
      assert body == data + CRLF[..j - |data|];
      RunBody(data, CRLF[..j - |data|]);
      assert data + [] == data;
    }
  }

  lemma RunCutInLine(c: Chunk, k: nat)
    requires Legal(c) && k < |c.line| + 2
    ensures Run(Size, EncodeChunk(c)[..k]) == Progress([], Size, EncodeChunk(c)[..k], false)
  {
    assert EncodeChunk(c)[..k] == (c.line + CRLF)[..k];
    LineCut(c.line, k);
  }

  lemma RunCutPastLine(c: Chunk, k: nat)
    requires Legal(c) && |c.line| + 2 <= k < |EncodeChunk(c)|
    ensures Run(Size, EncodeChunk(c)[..k]) == Run(Body(|c.data|), (c.data + CRLF)[..k - |c.line| - 2])
  {
    var body := (c.data + CRLF)[..k - |c.line| - 2];
    assert EncodeChunk(c)[..k] == c.line + (CRLF + body);
    RunLine(c.line, |c.data|, body);
  }

  /** Decoding a chunk cut after `k` bytes. */
  lemma RunCutChunk(c: Chunk, k: nat)
    requires Legal(c) && k < |EncodeChunk(c)|
    ensures var p, start := Run(Size, EncodeChunk(c)[..k]), |c.line| + 2;
      && !p.failed
      && p.out == WithinChunk(c, k)
      && (k < start ==> p.mode == Size && |p.buf| == k)
      && (start <= k < start + |c.data| ==> p.mode.Body?)
      && (start + |c.data| <= k ==> p.mode == CrLf)
  {
    if k < |c.line| + 2 {
      RunCutInLine(c, k);
    } else {
      RunCutPastLine(c, k);
      RunCutBody(c.data, k - |c.line| - 2);
    }
  }

  /** Decoding inverts encoding, whatever follows the last chunk. */
  lemma {:induction false} DecodesEncoding(chunks: seq<Chunk>, last: Bytes, trailers: Bytes)
    requires AllLegal(chunks) && LineFor(last, 0)
    ensures Run(Size, Encode(chunks, last) + trailers) == Progress(Payload(chunks), Done, [], false)
  {
    if chunks == [] {
      assert Encode(chunks, last) + trailers == last + (CRLF + trailers);
      RunLine(last, 0, trailers);
    } else {
      var rest := Encode(chunks[1..], last) + trailers;
      assert Encode(chunks, last) + trailers == EncodeChunk(chunks[0]) + rest;
      RunChunk(chunks[0], rest);
      DecodesEncoding(chunks[1..], last, trailers);
    }
  }

  predicate Accepted(p: Progress) {
    !p.failed && p.mode == Done
  }

  /** A buffer that decodes to the end starts with a size line. */
  lemma LineIsThere(buf: Bytes)
    requires Accepted(Run(Size, buf))
    ensures FindCrlf(buf).Some? && FindCrlf(buf).value + 2 <= |buf|
    ensures var nl := FindCrlf(buf).value;
      && SizeOf(buf[..nl]).Some?
      && Run(Size, buf) ==
         if SizeOf(buf[..nl]).value == 0 then Progress([], Done, [], false)
         else Run(Body(SizeOf(buf[..nl]).value), buf[nl + 2..])
  {
  }

  lemma LineParts(buf: Bytes) returns (line: Bytes, n: nat, rest: Bytes)
    requires Accepted(Run(Size, buf))
    ensures LineFor(line, n) && buf == line + (CRLF + rest)
    ensures Run(Size, buf) == if n == 0 then Progress([], Done, [], false) else Run(Body(n), rest)
  {
    LineIsThere(buf);
    var nl := FindCrlf(buf).value;
    line, n, rest := buf[..nl], SizeOf(buf[..nl]).value, buf[nl + 2..];
    LineFound(buf, nl);
  }

  lemma LineFound(buf: Bytes, nl: nat)
    requires FindCrlf(buf) == Some(nl)
    ensures FirstCrlfAt(buf[..nl] + CRLF, nl) && buf == buf[..nl] + (CRLF + buf[nl + 2..])
  {
    FindCrlfIs(buf, nl);
    var line := buf[..nl] + CRLF;
    assert line == buf[..nl + 2];
    forall i: nat | i < nl ensures !CrlfAt(line, i) {
      assert !CrlfAt(buf, i);
    }
  }

  lemma BodyTooShort(n: nat, buf: Bytes)
    requires |buf| < n
    ensures Run(Body(n), buf).mode.Body?
  {
    if buf != [] {
      assert buf[..|buf|] == buf && buf[|buf|..] == [];
    }
  }

  lemma CrLfParts(buf: Bytes)
    requires Accepted(Run(CrLf, buf))
    ensures |buf| >= 2 && buf == CRLF + buf[2..] && Run(CrLf, buf) == Run(Size, buf[2..])
  {
  }

  /** A chunk's payload and what follows it, when decoding gets to the end. */
  lemma BodyParts(n: nat, buf: Bytes) returns (data: Bytes, rest: Bytes)
    requires n > 0 && Accepted(Run(Body(n), buf))
    ensures |data| == n && buf == data + (CRLF + rest) && Run(Body(n), buf) == Emit(data, Run(Size, rest))
  {
    if |buf| < n {
      BodyTooShort(n, buf);
    }
    data := buf[..n];
    var tail := buf[n..];
    assert buf == data + tail;
    RunBody(data, tail);
    CrLfParts(tail);
    rest := tail[2..];
  }

  lemma EncodeFirst(c: Chunk, more: seq<Chunk>, last: Bytes, trailers: Bytes)
    ensures Encode([c] + more, last) + trailers == c.line + (CRLF + (c.data + (CRLF + (Encode(more, last) + trailers))))
    ensures Payload([c] + more) == c.data + Payload(more)
  {
    assert ([c] + more)[1..] == more;
    assert EncodeChunk(c) + (Encode(more, last) + trailers) ==
      c.line + (CRLF + (c.data + (CRLF + (Encode(more, last) + trailers))));
  }

  /** And nothing but an encoding decodes to the end: what is accepted consists of
      size lines, payloads of those sizes and a last chunk, and the output is the
      payloads. */
  lemma {:induction false} OnlyEncodingsDecode(buf: Bytes) returns (chunks: seq<Chunk>, last: Bytes, trailers: Bytes)
    requires Accepted(Run(Size, buf))
    ensures AllLegal(chunks) && LineFor(last, 0)
    ensures buf == Encode(chunks, last) + trailers && Run(Size, buf).out == Payload(chunks)
    decreases |buf|
  {
    var line, n, rest := LineParts(buf);
    if n == 0 {
      chunks, last, trailers := [], line, rest;
      assert Encode([], last) + trailers == line + (CRLF + rest);
    } else {
      var data, tail := BodyParts(n, rest);
      var more;
      more, last, trailers := OnlyEncodingsDecode(tail);
      chunks := [Chunk(line, data)] + more;
      EncodeFirst(Chunk(line, data), more, last, trailers);
    }
  }

  /** The decoder's state after a prefix of an encoding. */
  predicate Greedy(chunks: seq<Chunk>, last: Bytes, k: nat, p: Progress) {
    && !p.failed && p.out == PayloadWithin(chunks, k)
    && (PlaceOf(chunks, last, k) == InLine <==> p.mode == Size && p.buf != [])
    && (PlaceOf(chunks, last, k) == InPayload <==> p.mode.Body?)
    && (PlaceOf(chunks, last, k) == AfterLast <==> p.mode == Done)
  }

  lemma GreedyInFirstChunk(chunks: seq<Chunk>, last: Bytes, k: nat)
    requires chunks != [] && Legal(chunks[0]) && k < |EncodeChunk(chunks[0])|
    ensures Greedy(chunks, last, k, Run(Size, EncodeChunk(chunks[0])[..k]))
  {
    RunCutChunk(chunks[0], k);
  }

  lemma GreedyInLastLine(last: Bytes, k: nat)
    requires LineFor(last, 0) && k <= |last| + 2
    ensures Greedy([], last, k, Run(Size, (last + CRLF)[..k]))
  {
    if k < |last| + 2 {
      LineCut(last, k);
    } else {
      assert (last + CRLF)[..k] == last + (CRLF + []);
      RunLine(last, 0, []);
    }
  }

  lemma CutAfterFirst(c: Chunk, rest: Bytes, k: nat)
    requires |EncodeChunk(c)| <= k <= |EncodeChunk(c)| + |rest|
    ensures (EncodeChunk(c) + rest)[..k] == EncodeChunk(c) + rest[..k - |EncodeChunk(c)|]
  {
  }

  lemma CutWithinFirst(c: Chunk, rest: Bytes, k: nat)
    requires k <= |EncodeChunk(c)|
    ensures (EncodeChunk(c) + rest)[..k] == EncodeChunk(c)[..k]
  {
  }

  lemma RunCutAfterFirst(c: Chunk, rest: Bytes, k: nat)
    requires Legal(c) && |EncodeChunk(c)| <= k <= |EncodeChunk(c)| + |rest|
    ensures Run(Size, (EncodeChunk(c) + rest)[..k]) == Emit(c.data, Run(Size, rest[..k - |EncodeChunk(c)|]))
  {
    CutAfterFirst(c, rest, k);
    RunChunk(c, rest[..k - |EncodeChunk(c)|]);
  }

  lemma GreedyShift(chunks: seq<Chunk>, last: Bytes, k: nat, p: Progress)
    requires chunks != [] && |EncodeChunk(chunks[0])| <= k
    requires Greedy(chunks[1..], last, k - |EncodeChunk(chunks[0])|, p)
    ensures Greedy(chunks, last, k, Emit(chunks[0].data, p))
  {
  }

  /** After any prefix of an encoding the output is every payload byte that has
      arrived, and the mode tells where the prefix stops. */
  lemma {:induction false} GreedyOnPrefixes(chunks: seq<Chunk>, last: Bytes, k: nat)
    requires AllLegal(chunks) && LineFor(last, 0) && k <= |Encode(chunks, last)|
    ensures Greedy(chunks, last, k, Run(Size, Encode(chunks, last)[..k]))
  {
    if chunks == [] {
      GreedyInLastLine(last, k);
    } else {
      var c, rest := chunks[0], Encode(chunks[1..], last);
      var size := |EncodeChunk(c)|;
      if k < size {
        CutWithinFirst(c, rest, k);
        GreedyInFirstChunk(chunks, last, k);
      } else {
        GreedyOnPrefixes(chunks[1..], last, k - size);
        RunCutAfterFirst(c, rest, k);
        GreedyShift(chunks, last, k, Run(Size, rest[..k - size]));
      }
    }
  }

  // ---- Partial chunks -----------------------------------------------------

  /** Does a cut after `k` bytes fall inside a chunk's payload, with some of it on
      either side? */
  predicate CutInside(chunks: seq<Chunk>, k: nat) {
    chunks != [] &&
      var start, size := |chunks[0].line| + 2, |chunks[0].data|;
      if k < start + size + 2 then start < k < start + size else CutInside(chunks[1..], k - start - size - 2)
  }

  /** The payload of whole chunks only. */
  ghost predicate OfWholeChunks(out: Bytes, chunks: seq<Chunk>) {
    exists n: nat :: n <= |chunks| && out == Payload(chunks[..n])
  }

  lemma PayloadOfMore(chunks: seq<Chunk>, n: nat)
    requires 0 < n <= |chunks|
    ensures Payload(chunks[..n]) == chunks[0].data + Payload(chunks[1..][..n - 1])
  {
    assert chunks[..n][1..] == chunks[1..][..n - 1];
  }

  /** A first chunk in front changes nothing. */
  lemma WholeBehindFirst(chunks: seq<Chunk>, out: Bytes)
    requires chunks != [] && chunks[0].data != []
    ensures OfWholeChunks(chunks[0].data + out, chunks) <==> OfWholeChunks(out, chunks[1..])
  {
    var data := chunks[0].data;
    if OfWholeChunks(out, chunks[1..]) {
      var n: nat :| n <= |chunks[1..]| && out == Payload(chunks[1..][..n]);
      PayloadOfMore(chunks, n + 1);
    }
    if OfWholeChunks(data + out, chunks) {
      var n: nat :| n <= |chunks| && data + out == Payload(chunks[..n]);
      assert n != 0;
      PayloadOfMore(chunks, n);
      assert out == (data + out)[|data|..] == Payload(chunks[1..][..n - 1]);
    }
  }

  /** Part of the first chunk is not the payload of any number of chunks. */
  lemma PartIsNotWhole(chunks: seq<Chunk>, i: nat)
    requires chunks != [] && 0 < i < |chunks[0].data|
    ensures !OfWholeChunks(chunks[0].data[..i], chunks)
  {
    forall n: nat | n <= |chunks| ensures Payload(chunks[..n]) != chunks[0].data[..i] {
      if n > 0 {
        PayloadOfMore(chunks, n);
      }
    }
  }

  lemma NoneOrFirstIsWhole(chunks: seq<Chunk>)
    requires chunks != []
    ensures OfWholeChunks([], chunks) && OfWholeChunks(chunks[0].data, chunks)
  {
    assert Payload(chunks[..0]) == [];
    PayloadOfMore(chunks, 1);
  }

  lemma {:induction false} WholeWithin(chunks: seq<Chunk>, k: nat)
    requires AllLegal(chunks)
    ensures OfWholeChunks(PayloadWithin(chunks, k), chunks) <==> !CutInside(chunks, k)
  {
    if chunks == [] {
      assert Payload(chunks[..0]) == [];
    } else {
      var start, size := |chunks[0].line| + 2, |chunks[0].data|;
      if k >= start + size + 2 {
        var rest := k - start - size - 2;
        WholeWithin(chunks[1..], rest);
        WholeBehindFirst(chunks, PayloadWithin(chunks[1..], rest));
      } else {
        NoneOrFirstIsWhole(chunks);
        if start < k < start + size {
          PartIsNotWhole(chunks, k - start);
        }
      }
    }
  }

  /** However an encoding that is cut after `k` bytes arrives, whole chunks only are
      handed out exactly if the cut does not fall inside a payload. */
  lemma PartialChunksExactly(chunks: seq<Chunk>, last: Bytes, k: nat, pieces: seq<Bytes>)
    requires AllLegal(chunks) && LineFor(last, 0) && k <= |Encode(chunks, last)|
    requires pieces != [] && Flat(pieces) == Encode(chunks, last)[..k]
    ensures OfWholeChunks(PushAll(Size, [], pieces).out, chunks) <==> !CutInside(chunks, k)
  {
    CutEncodingInPieces(chunks, last, k, pieces);
    WholeWithin(chunks, k);
  }

  /** A case: of the chunk "two" the first byte is handed out before the others. */
  lemma PartialChunkIsEmitted() returns (c: Chunk, last: Bytes, k: nat)
    ensures Legal(c) && LineFor(last, 0) && k < |Encode([c], last)|
    ensures Run(Size, Encode([c], last)[..k]).out == [0x74] && c.data == [0x74, 0x77, 0x6F]
    ensures !OfWholeChunks([0x74], [c])
  {
    c, last, k := Chunk(Hex(3) + [], [0x74, 0x77, 0x6F]), Hex(0) + [], 4;
    SizeLine(3, []);
    SizeLine(0, []);
    assert Hex(3) == [0x33];
    GreedyOnPrefixes([c], last, k);
    assert c.data[..1] == [0x74];
    PartIsNotWhole([c], 1);
  }

  /** Is a connection that closes now an acceptable end of the body? */
  predicate EofOk(mode: Mode, buf: Bytes) {
    mode == CrLf || mode == Done || (mode == Size && buf == [])
  }

  /** A whole exchange: an encoding cut anywhere arrives in any pieces. Every
      payload byte before the cut is handed out, and closing there is refused
      exactly when the cut lies inside a size line or a payload. */
  lemma CutEncodingInPieces(chunks: seq<Chunk>, last: Bytes, k: nat, pieces: seq<Bytes>)
    requires AllLegal(chunks) && LineFor(last, 0) && k <= |Encode(chunks, last)|
    requires pieces != [] && Flat(pieces) == Encode(chunks, last)[..k]
    ensures var p, place := PushAll(Size, [], pieces), PlaceOf(chunks, last, k);
      && !p.failed && p.out == PayloadWithin(chunks, k)
      && (p.mode == Done <==> place == AfterLast)
      && (EofOk(p.mode, p.buf) <==> place != InLine && place != InPayload)
  {
    SplitIndependence(Size, [], pieces);
    GreedyOnPrefixes(chunks, last, k);
    assert [] + Flat(pieces) == Flat(pieces);
  }

  // ---- Size lines a sender writes -----------------------------------------

  function HexChar(d: nat): byte
    requires d < 16
  {
    if d < 10 then (0x30 + d) as byte else (0x61 + d - 10) as byte
  }

  function Hex(n: nat): (r: Bytes)
    ensures r != []
  {
    if n < 16 then [HexChar(n)] else Hex(n / 16) + [HexChar(n % 16)]
  }

  predicate AllHex(s: Bytes) {
    forall i :: 0 <= i < |s| ==> HexDigit(s[i]).Some?
  }

  lemma {:induction false} HexOf(n: nat)
    ensures HexValue(Hex(n)) == Some(n) && AllHex(Hex(n))
  {
    var h := Hex(n);
    if n < 16 {
      assert h[..0] == [];
    } else {
      HexOf(n / 16);
      assert h[..|h| - 1] == Hex(n / 16);
    }
  }

  lemma NoSpaceInHex(h: Bytes)
    requires AllHex(h)
    ensures TrimBack(TrimFront(h)) == h
  {
    if h != [] {
      assert HexDigit(h[0]).Some? && HexDigit(h[|h| - 1]).Some?;
      assert SpaceAtFront(h) == 0 && SpaceAtBack(h) == 0;
    }
  }

  /** Hex digits with any extension behind a semicolon form a size line. */
  lemma SizeLine(n: nat, ext: Bytes)
    requires n < 0x1_0000_0000_0000_0000
    requires ext != [] ==> ext[0] == SEMICOLON
    requires FirstCrlfAt(ext + CRLF, |ext|)
    ensures LineFor(Hex(n) + ext, n)
  {
    HexOf(n);
    NoSpaceInHex(Hex(n));
    WithoutExtension(Hex(n), ext);
    SizeLineEnds(Hex(n), ext);
  }

  lemma WithoutExtension(h: Bytes, ext: Bytes)
    requires AllHex(h) && (ext != [] ==> ext[0] == SEMICOLON)
    ensures SizeOf(h + ext) == ParseHex(TrimBack(TrimFront(h)))
  {
    var line := h + ext;
    assert forall i :: 0 <= i < |h| ==> line[i] == h[i] != SEMICOLON;
    if ext == [] {
      assert line == h;
    } else {
      assert line[|h|] == SEMICOLON;
      assert FindFrom(line, SEMICOLON, 0) == Some(|h|);
      assert line[..|h|] == h;
    }
  }

  lemma SizeLineEnds(h: Bytes, ext: Bytes)
    requires AllHex(h) && FirstCrlfAt(ext + CRLF, |ext|) && (ext != [] ==> ext[0] == SEMICOLON)
    ensures FirstCrlfAt(h + ext + CRLF, |h + ext|)
  {
    var whole, suffix := h + ext + CRLF, ext + CRLF;
    assert whole == h + suffix;
    forall i: nat | i < |h + ext| ensures !CrlfAt(whole, i) {
      if i < |h| {
        assert whole[i] == h[i];
      } else {
        assert !CrlfAt(suffix, i - |h|);
      }
    }
    assert whole[|h + ext|..] == CRLF;
  }

  // ---- The decoder --------------------------------------------------------

  /** Handing out part of a chunk leaves the rest to be decoded. */
  lemma BodyStep(out: Bytes, remaining: nat, buf: Bytes)
    requires remaining > 0 && buf != []
    ensures var take := if remaining < |buf| then remaining else |buf|;
      Emit(out, Run(Body(remaining), buf)) ==
        Emit(out + buf[..take], Run(if take == remaining then CrLf else Body(remaining - take), buf[take..]))
  {
    var take := if remaining < |buf| then remaining else |buf|;
    Assoc(out, buf[..take], Run(if take == remaining then CrLf else Body(remaining - take), buf[take..]).out);
  }

  lemma EmitNothing(out: Bytes, mode: Mode, buf: Bytes, failed: bool)
    ensures Emit(out, Progress([], mode, buf, failed)) == Progress(out, mode, buf, failed)
  {
    assert out + [] == out;
  }

  /** The source's two error texts per position are one error here. */
  datatype Pushed = Decoded(out: Bytes, done: bool) | Malformed

  class ChunkedDecoder {
    var buf: Bytes
    var mode: Mode

    predicate Valid()
      reads this
    {
      Sane(mode)
    }

    constructor ()
      ensures Valid() && buf == [] && mode == Size
    {
      buf, mode := [], Size;
    }

    method Push(bytes: Bytes) returns (r: Pushed)
      requires Valid()
      modifies this
      ensures Valid()
      ensures var p := Run(old(mode), old(buf) + bytes);
        && mode == p.mode && buf == p.buf
        && r == if p.failed then Malformed else Decoded(p.out, p.mode == Done)
    {
      buf := buf + bytes;
      var out, done := [], false;
      ghost var whole := Run(mode, buf);
      RunStaysSane(mode, buf);
      while true
        invariant whole == Emit(out, Run(mode, buf))
        decreases |buf|, Rank(mode)
      {
        match mode
        case Size =>
          var nl := FindCrlf(buf);
          if nl.None? {
            EmitNothing(out, Size, buf, false);
            break;
          }
          var size := SizeOf(buf[..nl.value]);
          if size.None? {
            mode := Done;
            return Malformed;
          }
          buf := buf[nl.value + 2..];
          if size.value == 0 {
            buf, mode, done := [], Done, true;
            EmitNothing(out, Done, [], false);
            break;
          }
          mode := Body(size.value);
        case Body(remaining) =>
          if remaining == 0 {
            mode := CrLf;
            continue;
          }
          var take := if remaining < |buf| then remaining else |buf|;
          if take == 0 {
            EmitNothing(out, mode, buf, false);
            break;
          }
          BodyStep(out, remaining, buf);
          out := out + buf[..take];
          buf := buf[take..];
          mode := if take == remaining then CrLf else Body(remaining - take);
        case CrLf =>
          if |buf| < 2 {
            EmitNothing(out, CrLf, buf, false);
            break;
          }
          if buf[..2] != CRLF {
            mode := Done;
            return Malformed;
          }
          buf, mode := buf[2..], Size;
        case Done =>
          done := true;
          EmitNothing(out, Done, buf, false);
          break;
      }
      r := Decoded(out, done);
    }

    /** The engine closed without a last chunk; true means an acceptable end. */
    method FeedEof() returns (ok: bool)
      modifies this
      ensures ok == EofOk(old(mode), old(buf))
      ensures mode == if old(mode) == CrLf then Done else old(mode)
      ensures buf == if old(mode) == Done then old(buf) else []
    {
      match mode
      case CrLf =>
        buf, mode := [], Done;
        ok := true;
      case Size =>
        ok := buf == [];
        buf := [];
      case Body(_) =>
        buf := [];
        ok := false;
      case Done =>
        ok := true;
    }
  }
}
