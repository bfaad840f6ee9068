/** The bytes of MQTT: variable byte integers, numbers and strings, and the fixed header. */
module Wire {
  import opened Basics

  datatype Error =
    | InsufficientBytes(required: nat) | MalformedRemainingLength | MalformedPacket | BoundaryCrossed(len: nat)
    | TopicNotUtf8 | PayloadNotUtf8 | PayloadTooLong | PayloadSizeLimitExceeded(size: nat) | PayloadRequired
    | InvalidPacketType(kind: nat) | InvalidQoS(num: nat) | PacketIdZero | EmptySubscription
    | InvalidProtocol | InvalidProtocolLevel(level: Byte) | InvalidPropertyType(property: Byte) | IncorrectPacketFormat
    | ConnectionAborted | ConnectionReset

  datatype Result<+T> = Ok(value: T) | Err(error: Error)

  // ---------------------------------------------------------------- variable byte integers

  const MAX_LENGTH: nat := 268_435_455

  /** The variable byte integer of a number, seven bits to a byte, least significant first. */
  function VarInt(n: nat): (r: Text) {
    if n < 128 then [n] else [n % 128 + 128] + VarInt(n / 128)
  }

  function LenLen(len: nat): nat {
    if len >= 2_097_152 then 4 else if len >= 16_384 then 3 else if len >= 128 then 2 else 1
  }

  function Scale(k: nat): nat {
    match k
    case 0 => 1
    case 1 => 128
    case 2 => 16_384
    case _ => 2_097_152
  }

  /** Reading goes on at byte `k`, with `len` read so far: the result is how many bytes there were, and
      the number. */
  function LengthFrom(stream: Text, k: nat, len: nat): Result<(nat, nat)>
    requires k <= 3
    decreases 4 - k
  {
    if k >= |stream| then Err(InsufficientBytes(1))
    else
      var len' := len + stream[k] % 128 * Scale(k);
      if stream[k] < 128 then Ok((k + 1, len'))
      else if k == 3 then Err(MalformedRemainingLength)
      else LengthFrom(stream, k + 1, len')
  }

  function Length(stream: Text): Result<(nat, nat)> { LengthFrom(stream, 0, 0) }

  /** The loop of the reader, which shifts each byte into place. */
  method ReadLength(stream: Text) returns (r: Result<(nat, nat)>)
    ensures r == Length(stream)
  {
    var len: int, lenLen: int, done, scale: int := 0, 0, false, 1;
    while lenLen < |stream|
      invariant 0 <= len && 0 <= lenLen <= 3 && lenLen <= |stream| && scale == Scale(lenLen) && !done
      invariant Length(stream) == LengthFrom(stream, lenLen, len)
    {
      var byte: int := stream[lenLen];
      len := len + byte % 128 * scale;
      lenLen := lenLen + 1;
      done := byte < 128;
      if done {
        break;
      }
      if lenLen == 4 {
        return Err(MalformedRemainingLength);
      }
      scale := scale * 128;
    }
    r := if done then Ok((lenLen, len)) else Err(InsufficientBytes(1));
  }

  /** The bytes of a length, appended to a buffer. */
  method WriteRemainingLength(buffer: Text, len: nat) returns (buffer': Text, count: Result<nat>)
    ensures len > MAX_LENGTH ==> buffer' == buffer && count == Err(PayloadTooLong)
    ensures len <= MAX_LENGTH ==> buffer' == buffer + VarInt(len) && count == Ok(|VarInt(len)|)
  {
    buffer' := buffer;
    if len > MAX_LENGTH {
      return buffer, Err(PayloadTooLong);
    }
    var done, x, n := false, len, 0;
    while !done
      invariant done ==> x == 0 && buffer' == buffer + VarInt(len) && n == |VarInt(len)|
      invariant !done ==> buffer + VarInt(len) == buffer' + VarInt(x) && n + |VarInt(x)| == |VarInt(len)|
      decreases !done, x
    {
      var byte := x % 128;
      ghost var before, rest := buffer', VarInt(x);
      x := x / 128;
      if x > 0 {
        byte := byte + 128;
      }
      buffer' := buffer' + [byte];
      assert x > 0 ==> before + rest == before + [byte] + VarInt(x);
      n := n + 1;
      done := x == 0;
    }
    count := Ok(n);
  }

  lemma VarIntLen(n: nat)
    requires n <= MAX_LENGTH
    ensures |VarInt(n)| == LenLen(n)
  {
    if n >= 128 {
      assert VarInt(n) == [n % 128 + 128] + VarInt(n / 128);
      if n >= 16_384 {
        assert VarInt(n / 128) == [n / 128 % 128 + 128] + VarInt(n / 128 / 128);
        if n >= 2_097_152 {
          var m := n / 128 / 128;
          assert VarInt(m) == [m % 128 + 128] + VarInt(m / 128);
        }
      }
    }
  }

  /** What still fits into the bytes from the `k`th on. */
  function Room(k: nat): nat {
    match k
    case 0 => 268_435_456
    case 1 => 2_097_152
    case 2 => 16_384
    case _ => 128
  }

  lemma {:induction false} VarIntReads(head: Text, n: nat, suffix: Text, len: nat)
    requires |head| <= 3 && n < Room(|head|)
    ensures LengthFrom(head + VarInt(n) + suffix, |head|, len) == Ok((|head| + |VarInt(n)|, len + n * Scale(|head|)))
    decreases n
  {
    var k := |head|;
    var stream := head + VarInt(n) + suffix;
    assert stream[k] == VarInt(n)[0];
    if n < 128 {
      assert n % 128 == n;
    } else {
      var head' := head + [n % 128 + 128];
      VarIntStep(n);
      assert stream == head' + VarInt(n / 128) + suffix;
      ScaleUp(n, k);
      VarIntReads(head', n / 128, suffix, len + n % 128 * Scale(k));
    }
  }

  lemma VarIntStep(n: nat)
    requires n >= 128
    ensures VarInt(n) == [n % 128 + 128] + VarInt(n / 128) && (n % 128 + 128) % 128 == n % 128
  {
  }

  lemma ScaleUp(n: nat, k: nat)
    requires k <= 3 && 128 <= n < Room(k)
    ensures k < 3 && n / 128 < Room(k + 1)
    ensures n % 128 * Scale(k) + n / 128 * Scale(k + 1) == n * Scale(k)
  {
    assert n == n / 128 * 128 + n % 128;
  }

  /** A length that has been written is read back, whatever follows it, in `LenLen` bytes. */
  lemma LengthRoundTrip(n: nat, suffix: Text)
    requires n <= MAX_LENGTH
    ensures Length(VarInt(n) + suffix) == Ok((LenLen(n), n))
  {
    VarIntReads([], n, suffix, 0);
    VarIntLen(n);
    assert [] + VarInt(n) + suffix == VarInt(n) + suffix;
  }

  predicate Continue(s: Text, n: nat) {
    n <= |s| && forall i :: 0 <= i < n ==> s[i] >= 128
  }

  /** Reading never gives more than the largest length, and takes at most four bytes, those that are
      there.  It waits for another byte exactly if all bytes there are, fewer than four, say so, and
      refuses the length exactly if the first four bytes do. */
  lemma LengthIsBounded(stream: Text)
    ensures Length(stream).Ok? ==>
              var (count, n) := Length(stream).value; 1 <= count <= 4 && count <= |stream| && n <= MAX_LENGTH
    ensures Length(stream) == Err(InsufficientBytes(1)) <==> |stream| < 4 && Continue(stream, |stream|)
    ensures Length(stream) == Err(MalformedRemainingLength) <==> Continue(stream, 4)
    ensures Length(stream).Err? ==> Length(stream).error in {InsufficientBytes(1), MalformedRemainingLength}
  {
  }

  /** A length whose bytes are not all there yet asks for one more. */
  lemma {:induction false} LengthOfPrefix(n: nat, i: nat)
    requires n <= MAX_LENGTH && i < |VarInt(n)|
    ensures Length(VarInt(n)[..i]) == Err(InsufficientBytes(1))
  {
    VarIntLen(n);
    VarIntContinues(n);
    LengthIsBounded(VarInt(n)[..i]);
  }

  lemma {:induction false} VarIntContinues(n: nat)
    ensures forall i :: 0 <= i < |VarInt(n)| - 1 ==> VarInt(n)[i] >= 128
  {
    if n >= 128 {
      VarIntContinues(n / 128);
      var rest := VarInt(n / 128);
      assert forall i :: 1 <= i < |VarInt(n)| ==> VarInt(n)[i] == rest[i - 1];
    }
  }

  // ---------------------------------------------------------------- text

  /** Continuation bytes of UTF-8. */
  predicate Tail(s: Text, i: nat) { i < |s| && 0x80 <= s[i] < 0xC0 }

  /** How many bytes the first character of a UTF-8 text takes; none if there is no good one. */
  function CharLen(s: Text): (n: nat)
    requires s != []
    ensures n <= |s|
  {
    var b := s[0];
    if b < 0x80 then 1
    else if 0xC2 <= b < 0xE0 && Tail(s, 1) then 2
    else if 0xE0 <= b < 0xF0 && Tail(s, 1) && Tail(s, 2)
            && (b == 0xE0 ==> s[1] >= 0xA0) && (b == 0xED ==> s[1] < 0xA0) then 3
    else if 0xF0 <= b < 0xF5 && Tail(s, 1) && Tail(s, 2) && Tail(s, 3)
            && (b == 0xF0 ==> s[1] >= 0x90) && (b == 0xF4 ==> s[1] < 0x90) then 4
    else 0
  }

  predicate Utf8(s: Text)
    decreases |s|
  {
    s != [] ==> CharLen(s) > 0 && Utf8(s[CharLen(s)..])
  }

  // ---------------------------------------------------------------- reading

  function ReadU8(s: Text): Result<(Byte, Text)> {
    if s == [] then Err(MalformedPacket) else Ok((s[0], s[1..]))
  }

  function ReadU16(s: Text): Result<(PacketId, Text)> {
    if |s| < 2 then Err(MalformedPacket) else Ok((s[0] as int * 256 + s[1], s[2..]))
  }

  type U32 = x: int | 0 <= x < 0x1_0000_0000

  function ReadU32(s: Text): Result<(U32, Text)> {
    if |s| < 4 then Err(MalformedPacket)
    else Ok((((s[0] as int * 256 + s[1]) * 256 + s[2]) * 256 + s[3], s[4..]))
  }

  function ReadBytes(s: Text): Result<(Text, Text)> {
    match ReadU16(s)
    case Err(e) => Err(e)
    case Ok((len, rest)) => if len > |rest| then Err(BoundaryCrossed(len)) else Ok((rest[..len], rest[len..]))
  }

  function ReadString(s: Text): Result<(Text, Text)> {
    match ReadBytes(s)
    case Err(e) => Err(e)
    case Ok((t, rest)) => if Utf8(t) then Ok((t, rest)) else Err(TopicNotUtf8)
  }

  // ---------------------------------------------------------------- writing

  function U16(n: PacketId): (r: Text) { [n / 256, n % 256] }

  function U32Bytes(n: U32): (r: Text) {
    [n / 0x100_0000, n / 0x1_0000 % 256, n / 256 % 256, n % 256]
  }

  /** The length of a string is written as 16 bits, so a longer one is cut short. */
  function BytesField(b: Text): Text { U16(|b| % 0x1_0000) + b }

  lemma U16RoundTrip(n: PacketId, s: Text)
    ensures ReadU16(U16(n) + s) == Ok((n, s))
  {
    assert (U16(n) + s)[2..] == s;
  }

  lemma U32RoundTrip(n: U32, s: Text)
    ensures ReadU32(U32Bytes(n) + s) == Ok((n, s))
  {
    assert (U32Bytes(n) + s)[4..] == s;
  }

  lemma BytesRoundTrip(b: Text, s: Text)
    requires |b| < 0x1_0000
    ensures ReadBytes(BytesField(b) + s) == Ok((b, s))
  {
    U16RoundTrip(|b|, b + s);
    assert BytesField(b) + s == U16(|b|) + (b + s);
    assert (b + s)[..|b|] == b && (b + s)[|b|..] == s;
  }

  lemma StringRoundTrip(t: Text, s: Text)
    requires |t| < 0x1_0000 && Utf8(t)
    ensures ReadString(BytesField(t) + s) == Ok((t, s))
  {
    BytesRoundTrip(t, s);
  }

  /** A field that is too long to write loses: what is read back is a shorter one. */
  lemma LongFieldIsCut(b: Text, s: Text)
    requires |b| >= 0x1_0000
    ensures ReadBytes(BytesField(b) + s) != Ok((b, s))
  {
    var len := |b| % 0x1_0000;
    U16RoundTrip(len, b + s);
    assert BytesField(b) + s == U16(len) + (b + s);
  }

  // ---------------------------------------------------------------- the fixed header

  datatype FixedHeader = FixedHeader(byte1: Byte, fixedHeaderLen: nat, remainingLen: nat) {
    function FrameLength(): nat { fixedHeaderLen + remainingLen }

    function Kind(): nat { byte1 / 16 }
  }

  function ParseFixedHeader(stream: Text): Result<FixedHeader> {
    if |stream| < 2 then Err(InsufficientBytes(2 - |stream|))
    else
      match Length(stream[1..])
      case Err(e) => Err(e)
      case Ok((lenLen, len)) => Ok(FixedHeader(stream[0], lenLen + 1, len))
  }

  function Check(stream: Text, maxPacketSize: nat): Result<FixedHeader> {
    match ParseFixedHeader(stream)
    case Err(e) => Err(e)
    case Ok(h) =>
      if h.remainingLen > maxPacketSize then Err(PayloadSizeLimitExceeded(h.remainingLen))
      else if |stream| < h.FrameLength() then Err(InsufficientBytes(h.FrameLength() - |stream|))
      else Ok(h)
  }

  /** A whole packet: its first byte, the length of the rest, and the rest. */
  function Frame(byte1: Byte, body: Text): Text { [byte1] + VarInt(|body|) + body }

  /** A frame at the front of a stream is found. */
  lemma CheckFindsFrame(byte1: Byte, body: Text, rest: Text, maxPacketSize: nat)
    requires |body| <= MAX_LENGTH && |body| <= maxPacketSize
    ensures Check(Frame(byte1, body) + rest, maxPacketSize) == Ok(FixedHeader(byte1, 1 + |VarInt(|body|)|, |body|))
  {
    var stream := Frame(byte1, body) + rest;
    LengthRoundTrip(|body|, body + rest);
    VarIntLen(|body|);
    assert stream[1..] == VarInt(|body|) + (body + rest);
  }

  /** While a frame is incomplete, the check asks for at least one byte, and for no more than are missing:
      waiting for as many never waits for bytes of the next packet. */
  lemma CheckAsksForNoMore(byte1: Byte, body: Text, i: nat, maxPacketSize: nat)
    requires |body| <= MAX_LENGTH && |body| <= maxPacketSize && i < |Frame(byte1, body)|
    ensures Check(Frame(byte1, body)[..i], maxPacketSize).Err?
    ensures Check(Frame(byte1, body)[..i], maxPacketSize).error.InsufficientBytes?
    ensures 1 <= Check(Frame(byte1, body)[..i], maxPacketSize).error.required <= |Frame(byte1, body)| - i
  {
    var frame, v := Frame(byte1, body), VarInt(|body|);
    var stream := frame[..i];
    VarIntLen(|body|);
    hide VarInt, Length;
    if i >= 2 {
      assert stream[1..] == (v + body)[..i - 1] by { assert frame == [byte1] + (v + body); }
      if i - 1 < |v| {
        assert (v + body)[..i - 1] == v[..i - 1];
        LengthOfPrefix(|body|, i - 1);
      } else {
        assert (v + body)[..i - 1] == v + body[..i - 1 - |v|];
        LengthRoundTrip(|body|, body[..i - 1 - |v|]);
      }
    }
  }
}
