/** PUBLISH, SUBSCRIBE and UNSUBSCRIBE of MQTT 3.1.1, as bytes. */
module V4 {
  import opened Basics
  import opened Wire

  type FilterRequest = (Text, QoS)

  /** A packet that can be written and read here; of the others, the reader only frames the bytes. */
  datatype Packet =
    | PublishPacket(publish: Publish)
    | SubscribePacket(pkid: PacketId, filters: seq<FilterRequest>)
    | UnsubscribePacket(pkid: PacketId, topics: seq<Text>)
    | PingReq | PingResp | Disconnect
    | OtherPacket(kind: nat, frame: Text)

  function QosNum(q: QoS): (n: Byte)
    ensures n <= 2
  {
    match q case AtMostOnce => 0 case AtLeastOnce => 1 case ExactlyOnce => 2
  }

  function Qos(num: nat): Option<QoS> {
    if num == 0 then Some(AtMostOnce) else if num == 1 then Some(AtLeastOnce)
    else if num == 2 then Some(ExactlyOnce) else None
  }

  // ---------------------------------------------------------------- PUBLISH

  function Bit(b: bool): (n: Byte)
    ensures n <= 1
  {
    if b then 1 else 0
  }

  /** The first byte: the packet type, and the flags of the publish. */
  function PublishByte(p: Publish): Byte { 48 + Bit(p.retain) + 2 * QosNum(p.qos) + 8 * Bit(p.dup) }

  function PublishLen(p: Publish): nat {
    2 + |p.topic| + |p.payload| + if p.qos.AtMostOnce? then 0 else 2
  }

  function PublishBody(p: Publish): Text {
    BytesField(p.topic) + (if p.qos.AtMostOnce? then [] else U16(p.pkid)) + p.payload
  }

  /** A packet id that is missing is noticed only after the head of the packet has been written. */
  function WritePublish(buffer: Text, p: Publish): (Text, Result<nat>) {
    var head := buffer + [PublishByte(p)];
    if PublishLen(p) > MAX_LENGTH then (head, Err(PayloadTooLong))
    else
      var begun := head + VarInt(PublishLen(p)) + BytesField(p.topic);
      if !p.qos.AtMostOnce? && p.pkid == 0 then (begun, Err(PacketIdZero))
      else
        (begun + (if p.qos.AtMostOnce? then [] else U16(p.pkid)) + p.payload,
         Ok(1 + |VarInt(PublishLen(p))| + PublishLen(p)))
  }

  function ReadPublish(h: FixedHeader, frame: Text): Result<Publish>
    requires h.fixedHeaderLen <= |frame|
  {
    var num: nat := h.byte1 / 2 % 4;
    match Qos(num)
    case None => Err(InvalidQoS(num))
    case Some(qos) =>
      match ReadBytes(frame[h.fixedHeaderLen..])
      case Err(e) => Err(e)
      case Ok((topic, rest)) =>
        var dup, retain := h.byte1 / 8 % 2 == 1, h.byte1 % 2 == 1;
        if qos.AtMostOnce? then Ok(Publish(dup, retain, qos, 0, topic, rest))
        else
          match ReadU16(rest)
          case Err(e) => Err(e)
          case Ok((pkid, payload)) =>
            if pkid == 0 then Err(PacketIdZero) else Ok(Publish(dup, retain, qos, pkid, topic, payload))
  }

  // ---------------------------------------------------------------- SUBSCRIBE

  function FilterBytes(f: FilterRequest): Text { BytesField(f.0) + [QosNum(f.1)] }

  function FiltersBytes(fs: seq<FilterRequest>): Text {
    if fs == [] then [] else FiltersBytes(fs[..|fs| - 1]) + FilterBytes(fs[|fs| - 1])
  }

  function FiltersLen(fs: seq<FilterRequest>): nat {
    if fs == [] then 0 else FiltersLen(fs[..|fs| - 1]) + 2 + |fs[|fs| - 1].0| + 1
  }

  function WriteSubscribe(buffer: Text, pkid: PacketId, fs: seq<FilterRequest>): (Text, Result<nat>) {
    var len := 2 + FiltersLen(fs);
    if len > MAX_LENGTH then (buffer + [0x82], Err(PayloadTooLong))
    else (buffer + [0x82] + VarInt(len) + U16(pkid) + FiltersBytes(fs), Ok(1 + |VarInt(len)| + len))
  }

  /** One filter of a SUBSCRIBE, and what comes after it. */
  function ReadFilter(bytes: Text): Result<(FilterRequest, Text)> {
    match ReadBytes(bytes)
    case Err(e) => Err(e)
    case Ok((path, rest)) =>
      if !Utf8(path) then Err(PayloadNotUtf8)
      else
        match ReadU8(rest)
        case Err(e) => Err(e)
        case Ok((options, more)) =>
          match Qos(options % 4)
          case None => Err(InvalidQoS(options % 4))
          case Some(qos) => Ok(((path, qos), more))
  }

  function ReadFilters(bytes: Text): Result<seq<FilterRequest>>
    decreases |bytes|
  {
    if bytes == [] then Ok([])
    else
      match ReadFilter(bytes)
      case Err(e) => Err(e)
      case Ok((f, rest)) =>
        match ReadFilters(rest)
        case Err(e) => Err(e)
        case Ok(fs) => Ok([f] + fs)
  }

  function ReadSubscribe(h: FixedHeader, frame: Text): Result<Packet>
    requires h.fixedHeaderLen <= |frame|
  {
    match ReadU16(frame[h.fixedHeaderLen..])
    case Err(e) => Err(e)
    case Ok((pkid, rest)) =>
      match ReadFilters(rest)
      case Err(e) => Err(e)
      case Ok(fs) => if fs == [] then Err(EmptySubscription) else Ok(SubscribePacket(pkid, fs))
  }

  /** The loop of the reader. */
  method ReadSubscribeLoop(h: FixedHeader, frame: Text) returns (r: Result<Packet>)
    requires h.fixedHeaderLen <= |frame|
    ensures r == ReadSubscribe(h, frame)
  {
    var first := ReadU16(frame[h.fixedHeaderLen..]);
    if first.Err? {
      return Err(first.error);
    }
    var (pkid, bytes) := first.value;
    var filters := [];
    ghost var all := bytes;
    assert ReadFilters(all).Ok? ==> filters + ReadFilters(all).value == ReadFilters(all).value;
    while bytes != []
      invariant ReadFilters(all) ==
                if ReadFilters(bytes).Err? then ReadFilters(bytes) else Ok(filters + ReadFilters(bytes).value)
      decreases |bytes|
    {
      var next := ReadFilter(bytes);
      if next.Err? {
        return Err(next.error);
      }
      var (f, rest) := next.value;
      assert ReadFilters(rest).Ok? ==>
             filters + ([f] + ReadFilters(rest).value) == filters + [f] + ReadFilters(rest).value;
      filters := filters + [f];
      bytes := rest;
    }
    assert filters + [] == filters;
    r := if filters == [] then Err(EmptySubscription) else Ok(SubscribePacket(pkid, filters));
  }

  // ---------------------------------------------------------------- UNSUBSCRIBE

  function TopicsBytes(ts: seq<Text>): Text {
    if ts == [] then [] else TopicsBytes(ts[..|ts| - 1]) + BytesField(ts[|ts| - 1])
  }

  function TopicsLen(ts: seq<Text>): nat {
    if ts == [] then 0 else TopicsLen(ts[..|ts| - 1]) + |ts[|ts| - 1]| + 2
  }

  function WriteUnsubscribe(buffer: Text, pkid: PacketId, ts: seq<Text>): (Text, Result<nat>) {
    var len := 2 + TopicsLen(ts);
    if len > MAX_LENGTH then (buffer + [0xA2], Err(PayloadTooLong))
    else (buffer + [0xA2] + VarInt(len) + U16(pkid) + TopicsBytes(ts), Ok(1 + |VarInt(len)| + len))
  }

  function ReadTopics(bytes: Text): Result<seq<Text>>
    decreases |bytes|
  {
    if bytes == [] then Ok([])
    else
      match ReadString(bytes)
      case Err(e) => Err(e)
      case Ok((t, rest)) =>
        match ReadTopics(rest)
        case Err(e) => Err(e)
        case Ok(ts) => Ok([t] + ts)
  }

  function ReadUnsubscribe(h: FixedHeader, frame: Text): Result<Packet>
    requires h.fixedHeaderLen <= |frame|
  {
    match ReadU16(frame[h.fixedHeaderLen..])
    case Err(e) => Err(e)
    case Ok((pkid, rest)) =>
      match ReadTopics(rest)
      case Err(e) => Err(e)
      case Ok(ts) => Ok(UnsubscribePacket(pkid, ts))
  }

  /** The reader counts down the bytes it was promised; on a whole frame the count never goes below
      zero, and reaches it exactly when the bytes are used up. */
  method ReadUnsubscribeLoop(h: FixedHeader, frame: Text) returns (r: Result<Packet>)
    requires |frame| == h.FrameLength()
    ensures r == ReadUnsubscribe(h, frame)
  {
    var first := ReadU16(frame[h.fixedHeaderLen..]);
    if first.Err? {
      return Err(first.error);
    }
    var (pkid, bytes) := first.value;
    var payloadBytes: nat := h.remainingLen - 2;
    var topics := [];
    ghost var all := bytes;
    assert ReadTopics(all).Ok? ==> topics + ReadTopics(all).value == ReadTopics(all).value;
    while payloadBytes > 0
      invariant payloadBytes == |bytes|
      invariant ReadTopics(all) ==
                if ReadTopics(bytes).Err? then ReadTopics(bytes) else Ok(topics + ReadTopics(bytes).value)
      decreases payloadBytes
    {
      var next := ReadString(bytes);
      if next.Err? {
        return Err(next.error);
      }
      var (t, rest) := next.value;
      assert ReadTopics(rest).Ok? ==> topics + ([t] + ReadTopics(rest).value) == topics + [t] + ReadTopics(rest).value;
      payloadBytes := payloadBytes - (|t| + 2);
      topics := topics + [t];
      bytes := rest;
    }
    assert topics + [] == topics;
    r := Ok(UnsubscribePacket(pkid, topics));
  }

  // ---------------------------------------------------------------- any packet

  function ReadKind(h: FixedHeader, frame: Text): Result<Packet>
    requires h.fixedHeaderLen <= |frame|
  {
    var kind := h.Kind();
    if kind == 0 || kind == 15 then Err(InvalidPacketType(kind))
    else if h.remainingLen == 0 then
      if kind == 12 then Ok(PingReq) else if kind == 13 then Ok(PingResp) else if kind == 14 then Ok(Disconnect)
      else Err(PayloadRequired)
    else if kind == 3 then
      match ReadPublish(h, frame) case Ok(p) => Ok(PublishPacket(p)) case Err(e) => Err(e)
    else if kind == 8 then ReadSubscribe(h, frame)
    else if kind == 10 then ReadUnsubscribe(h, frame)
    else if kind == 12 then Ok(PingReq)
    else if kind == 13 then Ok(PingResp)
    else if kind == 14 then Err(InvalidProtocol)
    else Ok(OtherPacket(kind, frame))
  }

  /** Takes the next packet off a stream; the second result is the stream afterwards.  As long as there is
      no whole frame, it is left as it was. */
  function ReadMut(stream: Text, maxSize: nat): (Result<Packet>, Text) {
    match Check(stream, maxSize)
    case Err(e) => (Err(e), stream)
    case Ok(h) => (ReadKind(h, stream[..h.FrameLength()]), stream[h.FrameLength()..])
  }

  function WritePacket(buffer: Text, p: Packet): (Text, Result<nat>)
    requires p.PublishPacket? || p.SubscribePacket? || p.UnsubscribePacket?
  {
    match p
    case PublishPacket(q) => WritePublish(buffer, q)
    case SubscribePacket(pkid, fs) => WriteSubscribe(buffer, pkid, fs)
    case UnsubscribePacket(pkid, ts) => WriteUnsubscribe(buffer, pkid, ts)
  }

  // ---------------------------------------------------------------- round trips

  /** The packet fits its fields: strings are UTF-8 of less than 64 KB, a packet id is there where one is
      due, a SUBSCRIBE has a filter, and the whole does not exceed the largest length. */
  ghost predicate Writable(p: Packet) {
    match p
    case PublishPacket(q) =>
      |q.topic| < 0x1_0000 && (!q.qos.AtMostOnce? ==> q.pkid != 0) && PublishLen(q) <= MAX_LENGTH
    case SubscribePacket(pkid, fs) =>
      fs != [] && 2 + FiltersLen(fs) <= MAX_LENGTH && forall k :: 0 <= k < |fs| ==> Field(fs[k].0)
    case UnsubscribePacket(pkid, ts) =>
      2 + TopicsLen(ts) <= MAX_LENGTH && forall k :: 0 <= k < |ts| ==> Field(ts[k])
    case _ => false
  }

  predicate Field(t: Text) { |t| < 0x1_0000 && Utf8(t) }

  /** A QoS 0 publish is sent without its packet id. */
  function AsSent(p: Packet): Packet {
    if p.PublishPacket? && p.publish.qos.AtMostOnce? then PublishPacket(p.publish.(pkid := 0)) else p
  }

  function FirstByte(p: Packet): Byte {
    match p case PublishPacket(q) => PublishByte(q) case SubscribePacket(_, _) => 0x82 case _ => 0xA2
  }

  function Body(p: Packet): Text {
    match p
    case PublishPacket(q) => PublishBody(q)
    case SubscribePacket(pkid, fs) => U16(pkid) + FiltersBytes(fs)
    case UnsubscribePacket(pkid, ts) => U16(pkid) + TopicsBytes(ts)
    case _ => []
  }

  function Encoded(p: Packet): Text { Frame(FirstByte(p), Body(p)) }

  lemma {:induction false} FiltersHaveLen(fs: seq<FilterRequest>)
    ensures |FiltersBytes(fs)| == FiltersLen(fs)
  {
    if fs != [] {
      FiltersHaveLen(fs[..|fs| - 1]);
    }
  }

  lemma {:induction false} TopicsHaveLen(ts: seq<Text>)
    ensures |TopicsBytes(ts)| == TopicsLen(ts)
  {
    if ts != [] {
      TopicsHaveLen(ts[..|ts| - 1]);
    }
  }

  lemma BodyHasLen(p: Packet)
    requires Writable(p)
    ensures 2 <= |Body(p)| <= MAX_LENGTH
    ensures |Body(p)| == match p
                         case PublishPacket(q) => PublishLen(q)
                         case SubscribePacket(_, fs) => 2 + FiltersLen(fs)
                         case UnsubscribePacket(_, ts) => 2 + TopicsLen(ts)
                         case _ => 0
  {
    if p.SubscribePacket? {
      FiltersHaveLen(p.filters);
    } else if p.UnsubscribePacket? {
      TopicsHaveLen(p.topics);
    }
  }

  lemma WritesPublish(buffer: Text, q: Publish)
    requires Writable(PublishPacket(q))
    ensures WritePublish(buffer, q) ==
            (buffer + Frame(PublishByte(q), PublishBody(q)), Ok(|Frame(PublishByte(q), PublishBody(q))|))
  {
    hide VarInt, BytesField, U16, PublishByte;
    BodyHasLen(PublishPacket(q));
    var len := VarInt(PublishLen(q));
    var pkid := if q.qos.AtMostOnce? then [] else U16(q.pkid);
    assert buffer + [PublishByte(q)] + len + BytesField(q.topic) + pkid + q.payload
           == buffer + ([PublishByte(q)] + len + (BytesField(q.topic) + pkid + q.payload));
  }

  lemma WritesSubscribe(buffer: Text, pkid: PacketId, fs: seq<FilterRequest>)
    requires 2 + FiltersLen(fs) <= MAX_LENGTH
    ensures var frame := Frame(0x82, U16(pkid) + FiltersBytes(fs));
            WriteSubscribe(buffer, pkid, fs) == (buffer + frame, Ok(|frame|))
  {
    hide VarInt, FiltersBytes, FiltersLen;
    FiltersHaveLen(fs);
    var len := VarInt(2 + FiltersLen(fs));
    assert buffer + [0x82] + len + U16(pkid) + FiltersBytes(fs) ==
           buffer + ([0x82] + len + (U16(pkid) + FiltersBytes(fs)));
  }

  lemma WritesUnsubscribe(buffer: Text, pkid: PacketId, ts: seq<Text>)
    requires 2 + TopicsLen(ts) <= MAX_LENGTH
    ensures var frame := Frame(0xA2, U16(pkid) + TopicsBytes(ts));
            WriteUnsubscribe(buffer, pkid, ts) == (buffer + frame, Ok(|frame|))
  {
    hide VarInt, TopicsBytes, TopicsLen;
    TopicsHaveLen(ts);
    var len := VarInt(2 + TopicsLen(ts));
    assert buffer + [0xA2] + len + U16(pkid) + TopicsBytes(ts) ==
           buffer + ([0xA2] + len + (U16(pkid) + TopicsBytes(ts)));
  }

  /** Writing appends exactly the frame, and returns its size: the length that was computed beforehand is
      that of the bytes written. */
  lemma WritesFrame(buffer: Text, p: Packet)
    requires Writable(p)
    ensures WritePacket(buffer, p) == (buffer + Encoded(p), Ok(|Encoded(p)|))
  {
    hide Frame, U16, FiltersBytes, TopicsBytes, PublishBody, PublishByte, WritePublish, WriteSubscribe,
         WriteUnsubscribe;
    match p
    case PublishPacket(q) => WritesPublish(buffer, q);
    case SubscribePacket(pkid, fs) => WritesSubscribe(buffer, pkid, fs);
    case UnsubscribePacket(pkid, ts) => WritesUnsubscribe(buffer, pkid, ts);
  }

  /** The first byte of a PUBLISH keeps its flags apart. */
  lemma PublishBits(p: Publish)
    ensures var b := PublishByte(p);
            b / 16 == 3 && Qos(b / 2 % 4) == Some(p.qos) && (b / 8 % 2 == 1 <==> p.dup) && (b % 2 == 1 <==> p.retain)
  {
  }

  lemma PublishRoundTrip(h: FixedHeader, head: Text, p: Publish)
    requires Writable(PublishPacket(p)) && h.fixedHeaderLen == |head| && h.byte1 == PublishByte(p)
    ensures ReadPublish(h, head + PublishBody(p)) == Ok(AsSent(PublishPacket(p)).publish)
  {
    hide BytesField, U16, ReadU16, ReadBytes, PublishByte, Qos;
    PublishBits(p);
    var frame := head + PublishBody(p);
    var more := (if p.qos.AtMostOnce? then [] else U16(p.pkid)) + p.payload;
    assert frame[h.fixedHeaderLen..] == BytesField(p.topic) + more;
    BytesRoundTrip(p.topic, more);
    if !p.qos.AtMostOnce? {
      U16RoundTrip(p.pkid, p.payload);
    } else {
      assert more == p.payload;
    }
  }

  lemma FilterRoundTrip(f: FilterRequest, rest: Text)
    requires Field(f.0)
    ensures ReadFilter(FilterBytes(f) + rest) == Ok((f, rest))
  {
    assert FilterBytes(f) + rest == BytesField(f.0) + ([QosNum(f.1)] + rest);
    BytesRoundTrip(f.0, [QosNum(f.1)] + rest);
    assert ([QosNum(f.1)] + rest)[1..] == rest;
  }

  lemma {:induction false} FiltersFirst(fs: seq<FilterRequest>)
    requires fs != []
    ensures FiltersBytes(fs) == FilterBytes(fs[0]) + FiltersBytes(fs[1..])
  {
    var n := |fs| - 1;
    if n == 0 {
      assert fs[..n] == [] && fs[1..] == [];
    } else {
      FiltersFirst(fs[..n]);
      assert fs[..n][1..] == fs[1..][..n - 1];
    }
  }

  lemma {:induction false} FiltersRoundTrip(fs: seq<FilterRequest>)
    requires forall k :: 0 <= k < |fs| ==> Field(fs[k].0)
    ensures ReadFilters(FiltersBytes(fs)) == Ok(fs)
    decreases |fs|
  {
    if fs != [] {
      FiltersFirst(fs);
      FilterRoundTrip(fs[0], FiltersBytes(fs[1..]));
      FiltersRoundTrip(fs[1..]);
      assert [fs[0]] + fs[1..] == fs;
    }
  }

  lemma {:induction false} TopicsFirst(ts: seq<Text>)
    requires ts != []
    ensures TopicsBytes(ts) == BytesField(ts[0]) + TopicsBytes(ts[1..])
  {
    var n := |ts| - 1;
    if n == 0 {
      assert ts[..n] == [] && ts[1..] == [];
    } else {
      TopicsFirst(ts[..n]);
      assert ts[..n][1..] == ts[1..][..n - 1];
    }
  }

  lemma {:induction false} TopicsRoundTrip(ts: seq<Text>)
    requires forall k :: 0 <= k < |ts| ==> Field(ts[k])
    ensures ReadTopics(TopicsBytes(ts)) == Ok(ts)
    decreases |ts|
  {
    if ts != [] {
      TopicsFirst(ts);
      StringRoundTrip(ts[0], TopicsBytes(ts[1..]));
      TopicsRoundTrip(ts[1..]);
      assert [ts[0]] + ts[1..] == ts;
    }
  }

  lemma SubscribeRoundTrip(h: FixedHeader, head: Text, pkid: PacketId, fs: seq<FilterRequest>)
    requires h.fixedHeaderLen == |head| && forall k :: 0 <= k < |fs| ==> Field(fs[k].0)
    ensures ReadSubscribe(h, head + (U16(pkid) + FiltersBytes(fs))) ==
            if fs == [] then Err(EmptySubscription) else Ok(SubscribePacket(pkid, fs))
  {
    hide ReadFilters, FiltersBytes, U16, ReadU16;
    var body := U16(pkid) + FiltersBytes(fs);
    assert (head + body)[h.fixedHeaderLen..] == body;
    U16RoundTrip(pkid, FiltersBytes(fs));
    FiltersRoundTrip(fs);
  }

  lemma UnsubscribeRoundTrip(h: FixedHeader, head: Text, pkid: PacketId, ts: seq<Text>)
    requires h.fixedHeaderLen == |head| && forall k :: 0 <= k < |ts| ==> Field(ts[k])
    ensures ReadUnsubscribe(h, head + (U16(pkid) + TopicsBytes(ts))) == Ok(UnsubscribePacket(pkid, ts))
  {
    hide ReadTopics, TopicsBytes, U16, ReadU16;
    var body := U16(pkid) + TopicsBytes(ts);
    assert (head + body)[h.fixedHeaderLen..] == body;
    U16RoundTrip(pkid, TopicsBytes(ts));
    TopicsRoundTrip(ts);
  }

  lemma KindRoundTrip(h: FixedHeader, head: Text, p: Packet)
    requires Writable(p) && h == FixedHeader(FirstByte(p), |head|, |Body(p)|)
    ensures ReadKind(h, head + Body(p)) == Ok(AsSent(p))
  {
    hide ReadPublish, ReadSubscribe, ReadUnsubscribe, PublishBody, FiltersBytes, TopicsBytes, U16, Field;
    BodyHasLen(p);
    match p
    case PublishPacket(q) => PublishRoundTrip(h, head, q);
    case SubscribePacket(pkid, fs) => SubscribeRoundTrip(h, head, pkid, fs);
    case UnsubscribePacket(pkid, ts) => UnsubscribeRoundTrip(h, head, pkid, ts);
  }

  /** What has been written is read back, and what follows it is left alone. */
  lemma PacketRoundTrip(p: Packet, rest: Text, maxSize: nat)
    requires Writable(p) && |Body(p)| <= maxSize
    ensures ReadMut(Encoded(p) + rest, maxSize) == (Ok(AsSent(p)), rest)
  {
    BodyHasLen(p);
    var head := [FirstByte(p)] + VarInt(|Body(p)|);
    CheckFindsFrame(FirstByte(p), Body(p), rest, maxSize);
    var stream := Encoded(p) + rest;
    assert stream[..|Encoded(p)|] == head + Body(p) && stream[|Encoded(p)|..] == rest;
    KindRoundTrip(FixedHeader(FirstByte(p), |head|, |Body(p)|), head, p);
  }

  /** A SUBSCRIBE without filters can be written, but is refused by the reader: of those that fit, exactly
      the ones with a filter are read back. */
  lemma SubscribeNeedsFilter(pkid: PacketId, fs: seq<FilterRequest>, rest: Text, maxSize: nat)
    requires 2 + FiltersLen(fs) <= MAX_LENGTH && 2 + FiltersLen(fs) <= maxSize
    requires forall k :: 0 <= k < |fs| ==> Field(fs[k].0)
    ensures ReadMut(Encoded(SubscribePacket(pkid, fs)) + rest, maxSize).0 == Ok(SubscribePacket(pkid, fs)) <==> fs != []
  {
    hide ReadMut, Encoded, Field, Body;
    if fs != [] {
      BodyHasLen(SubscribePacket(pkid, fs));
      PacketRoundTrip(SubscribePacket(pkid, fs), rest, maxSize);
    } else {
      NoFilterIsRefused(pkid, rest, maxSize);
    }
  }

  lemma NoFilterIsRefused(pkid: PacketId, rest: Text, maxSize: nat)
    requires 2 <= maxSize
    ensures ReadMut(Encoded(SubscribePacket(pkid, [])) + rest, maxSize).0 == Err(EmptySubscription)
  {
    hide ReadSubscribe, FiltersBytes, U16, VarInt, Check;
    var p := SubscribePacket(pkid, []);
    FiltersHaveLen([]);
    assert |U16(pkid)| == 2 by { U16Len(pkid); }
    CheckFindsFrame(0x82, Body(p), rest, maxSize);
    var head := [0x82] + VarInt(2);
    var stream := Encoded(p) + rest;
    assert stream[..|Encoded(p)|] == head + Body(p);
    SubscribeRoundTrip(FixedHeader(0x82, |head|, 2), head, pkid, []);
  }

  lemma U16Len(n: PacketId)
    ensures |U16(n)| == 2
  {
  }

  /** A publish that needs a packet id and has none leaves the head of a packet in the buffer. */
  lemma MissingPkidSpoilsBuffer(buffer: Text, p: Publish)
    requires !p.qos.AtMostOnce? && p.pkid == 0 && PublishLen(p) <= MAX_LENGTH
    ensures WritePublish(buffer, p).1 == Err(PacketIdZero) && |WritePublish(buffer, p).0| > |buffer|
  {
  }
}
