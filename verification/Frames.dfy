/** The tunnel's wire frames: a 7-byte header and a length-capped payload
    (cargo/src/frames.rs). */
module Frames {
  import opened Prelude

  newtype u16 = n: int | 0 <= n < 0x1_0000
  newtype u64 = n: int | 0 <= n < 0x1_0000_0000_0000_0000

  const HEADER_LEN: nat := 7
  const MAX_PAYLOAD: nat := 0x10_0000
  const TWO_32: nat := 0x1_0000_0000

  datatype Frame =
    | Hello(credential: Bytes)
    | Welcome(leaseSecs: u64)
    | Open(stream: u16, head: Bytes)
    | Data(stream: u16, bytes: Bytes)
    | RespHead(stream: u16, head: Bytes)
    | End(stream: u16, reason: Bytes)
    | HalfEnd(stream: u16)
    | Ping
    | Pong
    | GoAway(reason: Bytes)
  {
    function TypeTag(): byte {
      match this
      case Hello(_) => 0x01
      case Welcome(_) => 0x02
      case Open(_, _) => 0x03
      case Data(_, _) => 0x04
      case End(_, _) => 0x05
      case Ping => 0x06
      case Pong => 0x07
      case GoAway(_) => 0x08
      case HalfEnd(_) => 0x09
      case RespHead(_, _) => 0x0A
    }

    predicate IsControl() {
      Hello? || Welcome? || Ping? || Pong? || GoAway?
    }

    /** The stream id `Encode` puts into the header. */
    function HeaderStream(): u16 {
      if IsControl() then 0 else stream
    }

    function Payload(): Bytes {
      match this
      case Hello(credential) => credential
      case Welcome(leaseSecs) => Decimal(leaseSecs as nat)
      case Open(_, head) => head
      case Data(_, bytes) => bytes
      case RespHead(_, head) => head
      case End(_, reason) => reason
      case HalfEnd(_) => []
      case Ping => []
      case Pong => []
      case GoAway(reason) => reason
    }

    function Encode(): Bytes {
      WithHeader(TypeTag(), HeaderStream(), Payload())
    }
  }

  /** The source distinguishes the malformed cases only by message text. */
  datatype FrameError = TooLong(len: nat) | UnknownType(tag: byte) | Malformed

  datatype Decoded =
    | NeedMore
    | Decoded(frame: Frame, consumed: nat)
    | Rejected(error: FrameError)

  // ---- Big-endian integers ------------------------------------------------

  function Be16(n: u16): (r: Bytes)
    ensures |r| == 2
  {
    [(n as int / 0x100) as byte, (n as int % 0x100) as byte]
  }

  function FromBe16(s: Bytes): u16
    requires |s| == 2
  {
    (s[0] as int * 0x100 + s[1] as int) as u16
  }

  /** `payload.len() as u32`: the low 32 bits of the length. */
  function Be32(n: nat): (r: Bytes)
    ensures |r| == 4
  {
    [(n / 0x100_0000 % 0x100) as byte, (n / 0x1_0000 % 0x100) as byte,
     (n / 0x100 % 0x100) as byte, (n % 0x100) as byte]
  }

  function FromBe32(s: Bytes): (n: nat)
    requires |s| == 4
    ensures n < TWO_32
  {
    s[0] as int * 0x100_0000 + s[1] as int * 0x1_0000 + s[2] as int * 0x100 + s[3] as int
  }

  lemma Be32RoundTrip(n: nat)
    ensures FromBe32(Be32(n)) == n % TWO_32
  {
    var a, b, c := n / 0x100, n / 0x1_0000, n / 0x100_0000;
    assert b == a / 0x100 && c == b / 0x100;
    assert n == a * 0x100 + n % 0x100 && a == b * 0x100 + a % 0x100 && b == c * 0x100 + b % 0x100;
    var top := c / 0x100;
    assert c == top * 0x100 + c % 0x100;
    assert n == top * TWO_32 + FromBe32(Be32(n));
  }

  lemma FromBe32Inverse(s: Bytes)
    requires |s| == 4
    ensures Be32(FromBe32(s)) == s
  {
    var n := FromBe32(s);
    assert n / 0x100 == s[0] as int * 0x1_0000 + s[1] as int * 0x100 + s[2] as int;
    assert n / 0x1_0000 == s[0] as int * 0x100 + s[1] as int;
    assert n / 0x100_0000 == s[0] as int;
  }

  function WithHeader(kind: byte, stream: u16, payload: Bytes): (r: Bytes)
    ensures |r| == HEADER_LEN + |payload|
  {
    [kind] + Be16(stream) + Be32(|payload|) + payload
  }

  lemma HeaderParts(kind: byte, stream: u16, payload: Bytes, tail: Bytes)
    ensures var r := WithHeader(kind, stream, payload) + tail;
      && r[0] == kind && r[1..3] == Be16(stream) && r[3..7] == Be32(|payload|)
      && r[HEADER_LEN..] == payload + tail
  {
  }

  // ---- Decimal lease text -------------------------------------------------

  const ZERO: byte := 0x30
  const PLUS: byte := 0x2B

  predicate IsDigit(b: byte) { 0x30 <= b <= 0x39 }

  /** `u64::to_string`. */
  function Decimal(n: nat): (r: Bytes)
    ensures r != []
  {
    if n < 10 then [(0x30 + n) as byte] else Decimal(n / 10) + [(0x30 + n % 10) as byte]
  }

  /** The value of a string of digits, or None when some byte is not one. */
  function DigitsValue(s: Bytes): Option<nat>
  {
    if s == [] then Some(0)
    else
      var last := s[|s| - 1];
      match DigitsValue(s[..|s| - 1])
      case None => None
      case Some(v) => if IsDigit(last) then Some(v * 10 + (last as int - 0x30)) else None
  }

  /** `str::parse::<u64>`: one optional plus sign, at least one digit, no overflow. */
  function ParseU64(s: Bytes): Option<u64>
  {
    var digits := if |s| > 1 && s[0] == PLUS then s[1..] else s;
    if digits == [] then None
    else match DigitsValue(digits)
      case None => None
      case Some(v) => if v < 0x1_0000_0000_0000_0000 then Some(v as u64) else None
  }

  /** Text that `u64::to_string` can produce: digits only, no superfluous zero. */
  predicate CanonicalDecimal(s: Bytes) {
    s != [] && s[0] != PLUS && (s[0] == ZERO ==> |s| == 1)
  }

  lemma {:induction false} DecimalDigits(n: nat)
    ensures DigitsValue(Decimal(n)) == Some(n)
    ensures CanonicalDecimal(Decimal(n))
    ensures n > 0 ==> Decimal(n)[0] != ZERO
  {
    var d := Decimal(n);
    if n < 10 {
      assert d[..0] == [];
    } else {
      DecimalDigits(n / 10);
      assert d[..|d| - 1] == Decimal(n / 10);
    }
  }

  lemma {:induction false} DigitsCanonical(s: Bytes, v: nat)
    requires DigitsValue(s) == Some(v)
    requires s != [] && (s[0] == ZERO ==> |s| == 1)
    ensures Decimal(v) == s
    ensures s[0] != ZERO ==> v > 0
  {
    var front, last := s[..|s| - 1], s[|s| - 1];
    if front != [] {
      var w := DigitsValue(front).value;
      assert front[0] == s[0];
      DigitsCanonical(front, w);
      assert v / 10 == w && v % 10 == last as int - 0x30;
    }
  }

  lemma LeaseTextRoundTrip(n: u64)
    ensures ParseU64(Decimal(n as nat)) == Some(n)
  {
    DecimalDigits(n as nat);
  }

  lemma {:induction false} DigitsAreDigits(s: Bytes)
    requires DigitsValue(s).Some?
    ensures forall i :: 0 <= i < |s| ==> IsDigit(s[i])
  {
    if s != [] {
      DigitsAreDigits(s[..|s| - 1]);
    }
  }

  lemma LeaseTextCanonical(s: Bytes)
    requires ParseU64(s).Some?
    ensures Decimal(ParseU64(s).value as nat) == s <==> CanonicalDecimal(s)
  {
    DecimalDigits(ParseU64(s).value as nat);
    if CanonicalDecimal(s) {
      DigitsCanonical(s, DigitsValue(s).value);
    }
  }

  // ---- Decoding -----------------------------------------------------------

  function FrameOf(kind: byte, stream: u16, payload: Bytes): (r: Decoded)
    ensures r.Decoded? ==> r.consumed == HEADER_LEN + |payload|
    ensures !r.NeedMore?
  {
    var total := HEADER_LEN + |payload|;
    if kind == 0x01 then Decoded(Hello(payload), total)
    else if kind == 0x02 then
      (match ParseU64(payload)
       case None => Rejected(Malformed)
       case Some(secs) => Decoded(Welcome(secs), total))
    else if kind == 0x03 then Decoded(Open(stream, payload), total)
    else if kind == 0x04 then Decoded(Data(stream, payload), total)
    else if kind == 0x0A then Decoded(RespHead(stream, payload), total)
    else if kind == 0x09 then
      if payload != [] then Rejected(Malformed) else Decoded(HalfEnd(stream), total)
    else if kind == 0x05 then Decoded(End(stream, payload), total)
    else if kind == 0x06 then Decoded(Ping, total)
    else if kind == 0x07 then Decoded(Pong, total)
    else if kind == 0x08 then Decoded(GoAway(payload), total)
    else Rejected(UnknownType(kind))
  }

  /** The verdict once the header is in: `rest` is what follows it. */
  function DecodeBody(kind: byte, stream: u16, len: nat, rest: Bytes): (r: Decoded)
    ensures r.Decoded? ==> r.consumed == HEADER_LEN + len <= HEADER_LEN + |rest|
  {
    if len > MAX_PAYLOAD then Rejected(TooLong(len))
    else if |rest| < len then NeedMore
    else
      var r := FrameOf(kind, stream, rest[..len]);
      if r.Decoded? && r.frame.IsControl() && stream != 0 then Rejected(Malformed) else r
  }

  function Decode(buf: Bytes): (r: Decoded)
    ensures r.Decoded? ==> HEADER_LEN <= r.consumed <= |buf|
  {
    if |buf| < HEADER_LEN then NeedMore
    else DecodeBody(buf[0], FromBe16(buf[1..3]), FromBe32(buf[3..7]), buf[HEADER_LEN..])
  }

  /** What the decoder sees in an encoded frame followed by anything. */
  lemma HeaderOf(f: Frame, tail: Bytes)
    ensures var buf := f.Encode() + tail;
      && |buf| >= HEADER_LEN && buf[0] == f.TypeTag()
      && FromBe16(buf[1..3]) == f.HeaderStream()
      && FromBe32(buf[3..7]) == |f.Payload()| % TWO_32
      && buf[HEADER_LEN..] == f.Payload() + tail
  {
    HeaderParts(f.TypeTag(), f.HeaderStream(), f.Payload(), tail);
    Be32RoundTrip(|f.Payload()|);
  }

  lemma FrameOfParts(f: Frame)
    ensures FrameOf(f.TypeTag(), f.HeaderStream(), f.Payload()) == Decoded(f, HEADER_LEN + |f.Payload()|)
  {
    if f.Welcome? {
      LeaseTextRoundTrip(f.leaseSecs);
    }
  }

  /** Any bytes with the header and payload of `f` decode to `f`. */
  lemma DecodeOf(f: Frame, buf: Bytes, tail: Bytes)
    requires |f.Payload()| <= MAX_PAYLOAD
    requires |buf| >= HEADER_LEN && buf[0] == f.TypeTag() && FromBe16(buf[1..3]) == f.HeaderStream()
    requires FromBe32(buf[3..7]) == |f.Payload()| && buf[HEADER_LEN..] == f.Payload() + tail
    ensures Decode(buf) == Decoded(f, HEADER_LEN + |f.Payload()|)
  {
    assert (f.Payload() + tail)[..|f.Payload()|] == f.Payload();
    FrameOfParts(f);
  }

  lemma SmallLength(n: nat)
    requires n < TWO_32
    ensures n % TWO_32 == n
  {
  }

  lemma RoundTripLegal(f: Frame, tail: Bytes)
    requires |f.Payload()| <= MAX_PAYLOAD
    ensures Decode(f.Encode() + tail) == Decoded(f, |f.Encode()|)
  {
    HeaderOf(f, tail);
    SmallLength(|f.Payload()|);
    DecodeOf(f, f.Encode() + tail, tail);
  }

  /** Decoding inverts encoding exactly for payloads within the cap. */
  lemma RoundTrip(f: Frame, tail: Bytes)
    ensures Decode(f.Encode() + tail) == Decoded(f, |f.Encode()|) <==> |f.Payload()| <= MAX_PAYLOAD
  {
    if |f.Payload()| <= MAX_PAYLOAD {
      RoundTripLegal(f, tail);
    } else {
      HeaderOf(f, tail);
    }
  }

  lemma ShortBuffer(whole: Bytes, k: nat)
    requires HEADER_LEN <= k < |whole| == HEADER_LEN + FromBe32(whole[3..7]) <= HEADER_LEN + MAX_PAYLOAD
    ensures Decode(whole[..k]) == NeedMore
  {
    assert whole[..k][3..7] == whole[3..7];
  }

  /** A strict prefix of one frame is never decoded, and never rejected. */
  lemma PrefixNeedsMore(f: Frame, k: nat)
    requires |f.Payload()| <= MAX_PAYLOAD
    requires k < |f.Encode()|
    ensures Decode(f.Encode()[..k]) == NeedMore
  {
    if k >= HEADER_LEN {
      HeaderOf(f, []);
      assert f.Encode() + [] == f.Encode();
      SmallLength(|f.Payload()|);
      ShortBuffer(f.Encode(), k);
    }
  }

  /** A verdict on a buffer is final: bytes that arrive later never change it. */
  lemma VerdictIsFinal(buf: Bytes, more: Bytes)
    requires !Decode(buf).NeedMore?
    ensures Decode(buf + more) == Decode(buf)
  {
    var all := buf + more;
    assert all[1..3] == buf[1..3] && all[3..7] == buf[3..7] && all[HEADER_LEN..] == buf[HEADER_LEN..] + more;
    var len := FromBe32(buf[3..7]);
    if len <= MAX_PAYLOAD {
      assert (buf[HEADER_LEN..] + more)[..len] == buf[HEADER_LEN..][..len];
    }
  }

  /** Which decoded frames re-encode to the very bytes they came from. */
  predicate Canonical(f: Frame, payload: Bytes) {
    match f
    case Welcome(_) => CanonicalDecimal(payload)
    case Ping => payload == []
    case Pong => payload == []
    case _ => true
  }

  lemma SplitHeader(s: Bytes)
    requires |s| >= HEADER_LEN
    ensures WithHeader(s[0], FromBe16(s[1..3]), s[HEADER_LEN..]) == s <==> Be32(|s| - HEADER_LEN) == s[3..7]
  {
    assert Be16(FromBe16(s[1..3])) == s[1..3];
    var w := WithHeader(s[0], FromBe16(s[1..3]), s[HEADER_LEN..]);
    assert w[3..7] == Be32(|s| - HEADER_LEN);
    assert s == [s[0]] + s[1..3] + s[3..7] + s[HEADER_LEN..];
  }

  lemma DecodedParts(buf: Bytes)
    requires Decode(buf).Decoded?
    ensures var d := Decode(buf);
      && d.consumed == HEADER_LEN + FromBe32(buf[3..7])
      && d.frame.TypeTag() == buf[0] && d.frame.HeaderStream() == FromBe16(buf[1..3])
      && (d.frame.Payload() == buf[HEADER_LEN..d.consumed] <==> Canonical(d.frame, buf[HEADER_LEN..d.consumed]))
  {
    var d := Decode(buf);
    assert buf[HEADER_LEN..][..d.consumed - HEADER_LEN] == buf[HEADER_LEN..d.consumed];
    if d.frame.Welcome? {
      LeaseTextCanonical(buf[HEADER_LEN..d.consumed]);
    }
  }

  lemma ReencodeExact(buf: Bytes)
    requires Decode(buf).Decoded?
    ensures var d := Decode(buf);
      d.frame.Encode() == buf[..d.consumed] <==> Canonical(d.frame, buf[HEADER_LEN..d.consumed])
  {
    DecodedParts(buf);
    var d := Decode(buf);
    var taken := buf[..d.consumed];
    assert taken[HEADER_LEN..] == buf[HEADER_LEN..d.consumed] && taken[1..3] == buf[1..3] && taken[3..7] == buf[3..7];
    FromBe32Inverse(buf[3..7]);
    SplitHeader(taken);
    var e := d.frame.Encode();
    HeaderParts(d.frame.TypeTag(), d.frame.HeaderStream(), d.frame.Payload(), []);
    assert e + [] == e;
  }

  /** A PING with a payload is decoded, and re-encodes to fewer bytes. */
  lemma PaddedPing()
    ensures var buf := [Ping.TypeTag(), 0, 0, 0, 0, 0, 1, 0x2A];
      Decode(buf) == Decoded(Ping, 8) && Ping.Encode() != buf
  {
    var buf: Bytes := [Ping.TypeTag(), 0, 0, 0, 0, 0, 1, 0x2A];
    assert FromBe32(buf[3..7]) == 1 && FromBe16(buf[1..3]) == 0;
  }

  /** So is a WELCOME whose lease is written with a plus. */
  lemma SignedWelcome()
    ensures var buf := [Welcome(5).TypeTag(), 0, 0, 0, 0, 0, 2, 0x2B, 0x35];
      Decode(buf) == Decoded(Welcome(5), 9) && Welcome(5).Encode() != buf
  {
    var buf: Bytes := [Welcome(5).TypeTag(), 0, 0, 0, 0, 0, 2, 0x2B, 0x35];
    assert FromBe32(buf[3..7]) == 2 && FromBe16(buf[1..3]) == 0;
    var text: Bytes := [0x2B, 0x35];
    assert buf[HEADER_LEN..][..2] == text;
    assert text[1..] == [0x35] && DigitsValue(text[1..][..0]) == Some(0);
    assert ParseU64(text) == Some(5);
  }

  // ---- The bytes on the wire ----------------------------------------------

  /** Byte 0 is the type, bytes 1 and 2 the stream number and bytes 3 to 6 the payload
      length, both with the high byte first, and the payload follows. */
  lemma WireBytes(f: Frame)
    requires |f.Payload()| < TWO_32
    ensures var b := f.Encode();
      && |b| == 7 + |f.Payload()| && b[7..] == f.Payload()
      && b[0] == (match f
                  case Hello(_) => 1
                  case Welcome(_) => 2
                  case Open(_, _) => 3
                  case Data(_, _) => 4
                  case End(_, _) => 5
                  case Ping => 6
                  case Pong => 7
                  case GoAway(_) => 8
                  case HalfEnd(_) => 9
                  case RespHead(_, _) => 10)
      && 256 * b[1] as int + b[2] as int == (if f.IsControl() then 0 else f.stream as int)
      && 0x100_0000 * b[3] as int + 0x1_0000 * b[4] as int + 0x100 * b[5] as int + b[6] as int == |f.Payload()|
  {
    HeaderParts(f.TypeTag(), f.HeaderStream(), f.Payload(), []);
    assert f.Encode() + [] == f.Encode();
    Be32RoundTrip(|f.Payload()|);
    SmallLength(|f.Payload()|);
    var b := f.Encode();
    assert b[1] == b[1..3][0] && b[2] == b[1..3][1];
    assert b[3] == b[3..7][0] && b[4] == b[3..7][1] && b[5] == b[3..7][2] && b[6] == b[3..7][3];
  }

  /** What follows the header. */
  lemma WirePayload(f: Frame)
    ensures f.Payload() == match f
      case Hello(credential) => credential
      case Welcome(secs) => Decimal(secs as nat)
      case Open(_, head) => head
      case Data(_, bytes) => bytes
      case RespHead(_, head) => head
      case End(_, reason) => reason
      case GoAway(reason) => reason
      case _ => []
  {
  }

  /** One byte of data on stream 0x1234. */
  lemma DataOnTheWire()
    ensures Data(0x1234, [0xAB]).Encode() == [4, 0x12, 0x34, 0, 0, 0, 1, 0xAB]
    ensures Decode([4, 0x12, 0x34, 0, 0, 0, 1, 0xAB]) == Decoded(Data(0x1234, [0xAB]), 8)
  {
    var f := Data(0x1234, [0xAB]);
    assert f.Encode() == [4, 0x12, 0x34, 0, 0, 0, 1, 0xAB];
    RoundTripLegal(f, []);
    assert f.Encode() + [] == f.Encode();
  }

  /** Types whose frames belong to no stream. */
  predicate ControlType(tag: byte) {
    tag == 1 || tag == 2 || tag == 6 || tag == 7 || tag == 8
  }

  /** Exactly which buffers wait, which are refused, and why. */
  lemma VerdictIs(buf: Bytes)
    requires |buf| >= 7
    ensures var len := 0x100_0000 * buf[3] as int + 0x1_0000 * buf[4] as int + 0x100 * buf[5] as int + buf[6] as int;
      && (len > 0x10_0000 <==> Decode(buf) == Rejected(TooLong(len)))
      && (Decode(buf) == NeedMore <==> len <= 0x10_0000 && |buf| < 7 + len)
      && (len <= 0x10_0000 && 7 + len <= |buf| ==>
            var payload := buf[7..7 + len];
            && (Decode(buf) == Rejected(UnknownType(buf[0])) <==> buf[0] == 0 || buf[0] > 10)
            && (Decode(buf) == Rejected(Malformed) <==>
                  || (buf[0] == 2 && ParseU64(payload) == None)
                  || (buf[0] == 9 && payload != [])
                  || (ControlType(buf[0]) && (buf[1] != 0 || buf[2] != 0))))
  {
    assert buf[1] == buf[1..3][0] && buf[2] == buf[1..3][1];
    assert buf[3] == buf[3..7][0] && buf[4] == buf[3..7][1] && buf[5] == buf[3..7][2] && buf[6] == buf[3..7][3];
    var len := FromBe32(buf[3..7]);
    if 7 + len <= |buf| {
      assert buf[HEADER_LEN..][..len] == buf[7..7 + len];
    }
  }

  /** A lease is a number of digits, with a plus in front or not, that fits 64 bits. */
  lemma LeaseTextIs(s: Bytes)
    ensures ParseU64(s).Some? <==>
      exists digits :: (s == digits || s == [0x2B] + digits) && digits != []
        && (forall i :: 0 <= i < |digits| ==> 0x30 <= digits[i] <= 0x39)
        && DigitsValue(digits).Some? && DigitsValue(digits).value < 0x1_0000_0000_0000_0000
  {
    if ParseU64(s).Some? {
      var digits := if |s| > 1 && s[0] == PLUS then s[1..] else s;
      DigitsAreDigits(digits);
      assert s == digits || s == [0x2B] + digits;
    }
  }

  // ---- Streams of frames --------------------------------------------------

  function EncodeAll(fs: seq<Frame>): Bytes {
    if fs == [] then [] else fs[0].Encode() + EncodeAll(fs[1..])
  }

  /** Repeated decoding from the front: the frames, the bytes left over, and the
      verdict on those (NeedMore or Rejected). */
  function DecodeAll(buf: Bytes): (r: (seq<Frame>, Bytes, Decoded))
    ensures !r.2.Decoded? && Decode(r.1) == r.2
    decreases |buf|
  {
    match Decode(buf)
    case Decoded(f, n) =>
      var rest := DecodeAll(buf[n..]);
      ([f] + rest.0, rest.1, rest.2)
    case stop => ([], buf, stop)
  }

  lemma DecodeAllStep(f: Frame, rest: Bytes)
    requires |f.Payload()| <= MAX_PAYLOAD
    ensures DecodeAll(f.Encode() + rest).0 == [f] + DecodeAll(rest).0
    ensures DecodeAll(f.Encode() + rest).1 == DecodeAll(rest).1
    ensures DecodeAll(f.Encode() + rest).2 == DecodeAll(rest).2
  {
    RoundTripLegal(f, rest);
    assert (f.Encode() + rest)[|f.Encode()|..] == rest;
  }

  predicate AllLegal(fs: seq<Frame>) {
    forall i :: 0 <= i < |fs| ==> |fs[i].Payload()| <= MAX_PAYLOAD
  }

  lemma EncodeAllStep(fs: seq<Frame>, tail: Bytes)
    requires fs != []
    ensures EncodeAll(fs) + tail == fs[0].Encode() + (EncodeAll(fs[1..]) + tail)
  {
  }

  lemma Regroup<T>(xs: seq<T>, ys: seq<T>)
    requires xs != []
    ensures xs + ys == [xs[0]] + (xs[1..] + ys)
  {
  }

  lemma {:induction false} StreamRoundTrip(fs: seq<Frame>, tail: Bytes)
    requires AllLegal(fs)
    ensures DecodeAll(EncodeAll(fs) + tail).0 == fs + DecodeAll(tail).0
    ensures DecodeAll(EncodeAll(fs) + tail).1 == DecodeAll(tail).1
    ensures DecodeAll(EncodeAll(fs) + tail).2 == DecodeAll(tail).2
  {
    if fs == [] {
      assert EncodeAll(fs) + tail == tail;
    } else {
      var rest := EncodeAll(fs[1..]) + tail;
      EncodeAllStep(fs, tail);
      DecodeAllStep(fs[0], rest);
      StreamRoundTrip(fs[1..], tail);
      Regroup(fs, DecodeAll(tail).0);
    }
  }

  /** Frames cut anywhere by the transport: the whole frames before the cut come
      back, and the cut frame is held for more bytes. */
  lemma StreamCutAnywhere(fs: seq<Frame>, next: Frame, k: nat)
    requires AllLegal(fs) && AllLegal([next])
    requires k < |next.Encode()|
    ensures DecodeAll(EncodeAll(fs) + next.Encode()[..k]) == (fs, next.Encode()[..k], NeedMore)
  {
    var tail := next.Encode()[..k];
    assert [next][0] == next;
    PrefixNeedsMore(next, k);
    assert DecodeAll(tail) == ([], tail, NeedMore);
    StreamRoundTrip(fs, tail);
    assert fs + [] == fs;
  }

  /** Two lists of legal frames with the same bytes are the same list. */
  lemma EncodingIsInjective(fs: seq<Frame>, gs: seq<Frame>)
    requires AllLegal(fs) && AllLegal(gs)
    requires EncodeAll(fs) == EncodeAll(gs)
    ensures fs == gs
  {
    StreamRoundTrip(fs, []);
    StreamRoundTrip(gs, []);
    assert EncodeAll(fs) + [] == EncodeAll(gs) + [];
    assert DecodeAll([]) == ([], [], NeedMore);
    assert fs + [] == fs && gs + [] == gs;
  }
}
