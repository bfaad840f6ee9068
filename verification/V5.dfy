/** PUBLISH and CONNECT of MQTT 5.0, as bytes. */
module V5 {
  import opened Basics
  import opened Wire
  import opened V4
  import opened V5Properties

  // ---------------------------------------------------------------- the properties of a packet

  function PropertiesLen(o: Owner, p: Option<Properties>): nat {
    match p
    case None => 1
    case Some(q) => LenLen(PropsLen(AsList(o, q))) + PropsLen(AsList(o, q))
  }

  function PropertiesBytes(o: Owner, p: Option<Properties>): Text {
    match p
    case None => VarInt(0)
    case Some(q) => VarInt(PropsLen(AsList(o, q))) + PropsBytes(AsList(o, q))
  }

  /** Writes properties one by one; a subscription identifier that is too large stops the writer after
      its number has been put. */
  function WriteProps(buffer: Text, ps: seq<Prop>): (Text, bool)
    decreases |ps|
  {
    if ps == [] then (buffer, true)
    else if ps[0].value.Var? && ps[0].value.number > MAX_LENGTH then (buffer + [ps[0].id], false)
    else WriteProps(buffer + PropBytes(ps[0]), ps[1..])
  }

  function WriteProperties(buffer: Text, o: Owner, p: Option<Properties>): (Text, bool) {
    match p
    case None => (buffer + VarInt(0), true)
    case Some(q) =>
      var len := PropsLen(AsList(o, q));
      if len > MAX_LENGTH then (buffer, false) else WriteProps(buffer + VarInt(len), AsList(o, q))
  }

  /** The loop of the writer. */
  method WritePropsLoop(buffer: Text, ps: seq<Prop>) returns (buffer': Text, good: bool)
    ensures (buffer', good) == WriteProps(buffer, ps)
  {
    hide PropBytes;
    buffer', good := buffer, true;
    var k := 0;
    assert ps[0..] == ps;
    while k < |ps|
      invariant k <= |ps| && WriteProps(buffer, ps) == WriteProps(buffer', ps[k..])
    {
      var p := ps[k];
      assert ps[k..][1..] == ps[k + 1..];
      if p.value.Var? && p.value.number > MAX_LENGTH {
        return buffer' + [p.id], false;
      }
      buffer' := buffer' + PropBytes(p);
      k := k + 1;
    }
  }

  lemma {:induction false} WritesProps(buffer: Text, o: Owner, ps: seq<Prop>)
    requires PropsFit(o, ps)
    ensures WriteProps(buffer, ps) == (buffer + PropsBytes(ps), true)
    decreases |ps|
  {
    hide PropBytes, Field;
    if ps == [] {
      assert buffer + [] == buffer;
    } else {
      assert PropFits(o, ps[0]);
      WritesProps(buffer + PropBytes(ps[0]), o, ps[1..]);
      assert buffer + PropBytes(ps[0]) + PropsBytes(ps[1..]) == buffer + PropsBytes(ps);
    }
  }

  lemma WritesProperties(buffer: Text, o: Owner, p: Option<Properties>)
    requires PropertiesFit(o, p)
    ensures WriteProperties(buffer, o, p) == (buffer + PropertiesBytes(o, p), true)
  {
    hide AsList, PropsFit, Fits, WriteProps, PropsBytes, VarInt, PropsLen;
    if p.Some? {
      var ps := AsList(o, p.value);
      AsListFits(o, p.value);
      WritesProps(buffer + VarInt(PropsLen(ps)), o, ps);
      assert buffer + VarInt(PropsLen(ps)) + PropsBytes(ps) == buffer + (VarInt(PropsLen(ps)) + PropsBytes(ps));
    }
  }

  function ReadProperties(o: Owner, bytes: Text): Result<(Option<Properties>, Text)> {
    match Length(bytes)
    case Err(e) => Err(e)
    case Ok((count, len)) =>
      LengthIsBounded(bytes);
      var rest := bytes[count..];
      if len == 0 then Ok((None, rest))
      else
        match ReadProps(o, rest, 0, len)
        case Err(e) => Err(e)
        case Ok((ps, more)) => Ok((Some(Gather(NO_PROPERTIES, ps)), more))
  }

  ghost predicate PropertiesFit(o: Owner, p: Option<Properties>) {
    p.Some? ==> Fits(o, p.value) && PropsLen(AsList(o, p.value)) <= MAX_LENGTH
  }

  /** A record without properties is read back as none. */
  function Present(o: Owner, p: Option<Properties>): Option<Properties> {
    if p.Some? && AsList(o, p.value) != [] then p else None
  }

  lemma PropertiesHaveLen(o: Owner, p: Option<Properties>)
    requires PropertiesFit(o, p)
    ensures |PropertiesBytes(o, p)| == PropertiesLen(o, p)
  {
    hide AsList, PropsLen, PropsBytes, VarInt, Fits, PropsFit;
    if p.Some? {
      AsListFits(o, p.value);
      PropsHaveLen(o, AsList(o, p.value));
      VarIntLen(PropsLen(AsList(o, p.value)));
    } else {
      VarIntLen(0);
    }
  }

  /** What reading the properties gives, exactly: those before the point where the cursor of the reader
      runs past the end, with the bytes of the others left in the stream. */
  lemma PropertiesReadBack(o: Owner, p: Properties, rest: Text)
    requires Fits(o, p) && 0 < PropsLen(AsList(o, p)) <= MAX_LENGTH
    ensures var ps := AsList(o, p);
            var n := ReadUpTo(ps, 0);
            ReadProperties(o, PropertiesBytes(o, Some(p)) + rest)
            == Ok((Some(Gather(NO_PROPERTIES, ps[..n])), PropsBytes(ps[n..]) + rest))
  {
    hide AsList, PropsLen, PropsBytes, VarInt, Fits, PropsFit, ReadProps, Length, Gather, ReadUpTo;
    var ps := AsList(o, p);
    var len := PropsLen(ps);
    AsListFits(o, p);
    PropsReadBack(o, ps, rest, 0, 0, len);
    LengthRoundTrip(len, PropsBytes(ps) + rest);
    VarIntLen(len);
    assert PropertiesBytes(o, Some(p)) + rest == VarInt(len) + (PropsBytes(ps) + rest);
    assert (VarInt(len) + (PropsBytes(ps) + rest))[LenLen(len)..] == PropsBytes(ps) + rest;
  }

  lemma NoPropertiesReadBack(o: Owner, rest: Text)
    ensures ReadProperties(o, VarInt(0) + rest) == Ok((None, rest))
  {
    hide ReadProps, Length;
    LengthRoundTrip(0, rest);
    assert (VarInt(0) + rest)[1..] == rest;
  }

  /** Properties that are read in time are read back whole. */
  lemma PropertiesRoundTrip(o: Owner, p: Option<Properties>, rest: Text)
    requires PropertiesFit(o, p) && (p.Some? ==> ReadUpTo(AsList(o, p.value), 0) == |AsList(o, p.value)|)
    ensures ReadProperties(o, PropertiesBytes(o, p) + rest) == Ok((Present(o, p), rest))
  {
    hide AsList, PropsFit, Fits, ReadUpTo, ReadProperties, PropBytes, PropLen, VarInt;
    NoPropertiesReadBack(o, rest);
    if p.Some? {
      var ps := AsList(o, p.value);
      AsListFits(o, p.value);
      PropsHaveLen(o, ps);
      if ps == [] {
        assert PropertiesBytes(o, p) == VarInt(0);
      } else {
        PropertiesReadBack(o, p.value, rest);
        RecordRoundTrip(o, p.value);
        assert ps[..|ps|] == ps && PropsBytes(ps[|ps|..]) + rest == rest;
      }
    }
  }

  lemma {:induction false} ListedVars(p: Properties, order: seq<Byte>)
    requires SinglesAreSingle(p) && Distinct(order)
    ensures Vars(Listed(p, order)) == if SUBSCRIPTION in order then |p.subscriptions| else 0
  {
    if order != [] {
      var less, id := order[..|order| - 1], order[|order| - 1];
      assert id !in less;
      ListedVars(p, less);
      VarsJoin(Listed(p, less), PropsFor(p, id));
      if id == SUBSCRIPTION {
        AllVars(PropsFor(p, id));
      } else {
        NoVars(PropsFor(p, id));
      }
    }
  }

  lemma {:induction false} VarsJoin(a: seq<Prop>, b: seq<Prop>)
    ensures Vars(a + b) == Vars(a) + Vars(b)
  {
    if a == [] {
      assert a + b == b;
    } else {
      VarsJoin(a[1..], b);
      assert (a + b)[1..] == a[1..] + b;
    }
  }

  lemma {:induction false} AllVars(ps: seq<Prop>)
    requires forall k :: 0 <= k < |ps| ==> ps[k].value.Var?
    ensures Vars(ps) == |ps|
  {
    if ps != [] {
      AllVars(ps[1..]);
    }
  }

  lemma {:induction false} NoVars(ps: seq<Prop>)
    requires forall k :: 0 <= k < |ps| ==> !ps[k].value.Var?
    ensures Vars(ps) == 0
  {
    if ps != [] {
      NoVars(ps[1..]);
    }
  }

  /** With at most one subscription identifier, all properties are read in time. */
  lemma OneSubscriptionIsInTime(o: Owner, p: Properties)
    requires Fits(o, p) && |p.subscriptions| <= 1
    ensures ReadUpTo(AsList(o, p), 0) == |AsList(o, p)|
  {
    hide Fits, PropsFit, Listed, Order;
    SinglesFit(o, p);
    OrderIsDistinct(o);
    ListedVars(p, Order(o));
    AsListFits(o, p);
    OneAheadIsInTime(o, AsList(o, p), 0);
  }

  // ---------------------------------------------------------------- PUBLISH

  function Publish5Len(p: Publish, properties: Option<Properties>): nat {
    2 + |p.topic| + (if !p.qos.AtMostOnce? && p.pkid != 0 then 2 else 0)
    + PropertiesLen(OfPublish, properties) + |p.payload|
  }

  function Publish5Body(p: Publish, properties: Option<Properties>): Text {
    BytesField(p.topic) + (if p.qos.AtMostOnce? then [] else U16(p.pkid))
    + PropertiesBytes(OfPublish, properties) + p.payload
  }

  function WritePublish5(buffer: Text, p: Publish, properties: Option<Properties>): (Text, Result<nat>) {
    var len := Publish5Len(p, properties);
    var head := buffer + [PublishByte(p)];
    if len > MAX_LENGTH then (head, Err(PayloadTooLong))
    else
      var begun := head + VarInt(len) + BytesField(p.topic);
      if !p.qos.AtMostOnce? && p.pkid == 0 then (begun, Err(PacketIdZero))
      else
        var (more, good) :=
          WriteProperties(begun + (if p.qos.AtMostOnce? then [] else U16(p.pkid)), OfPublish, properties);
        if good then (more + p.payload, Ok(1 + |VarInt(len)| + len)) else (more, Err(PayloadTooLong))
  }

  function ReadPkid(qos: QoS, rest: Text): Result<(PacketId, Text)> {
    if qos.AtMostOnce? then Ok((0, rest)) else ReadU16(rest)
  }

  function ReadPublish5(h: FixedHeader, frame: Text): Result<(Publish, Option<Properties>)>
    requires h.fixedHeaderLen <= |frame|
  {
    var num: nat := h.byte1 / 2 % 4;
    match Qos(num)
    case None => Err(InvalidQoS(num))
    case Some(qos) =>
      match ReadBytes(frame[h.fixedHeaderLen..])
      case Err(e) => Err(e)
      case Ok((topic, rest)) =>
        match ReadPkid(qos, rest)
        case Err(e) => Err(e)
        case Ok((pkid, more)) =>
          if !qos.AtMostOnce? && pkid == 0 then Err(PacketIdZero)
          else
            match ReadProperties(OfPublish, more)
            case Err(e) => Err(e)
            case Ok((properties, payload)) =>
              Ok((Publish(h.byte1 / 8 % 2 == 1, h.byte1 % 2 == 1, qos, pkid, topic, payload), properties))
  }

  ghost predicate Publish5Fits(p: Publish, properties: Option<Properties>) {
    && |p.topic| < 0x1_0000 && (!p.qos.AtMostOnce? ==> p.pkid != 0)
    && PropertiesFit(OfPublish, properties) && Publish5Len(p, properties) <= MAX_LENGTH
  }

  function Publish5AsSent(p: Publish): Publish { if p.qos.AtMostOnce? then p.(pkid := 0) else p }

  /** The length that is declared and the count that is returned are those of the bytes written. */
  lemma WritesPublish5(buffer: Text, p: Publish, properties: Option<Properties>)
    requires Publish5Fits(p, properties)
    ensures |Publish5Body(p, properties)| == Publish5Len(p, properties)
    ensures var frame := Frame(PublishByte(p), Publish5Body(p, properties));
            WritePublish5(buffer, p, properties) == (buffer + frame, Ok(|frame|))
  {
    hide VarInt, BytesField, PublishByte, PropertiesBytes, PropertiesLen, AsList, WriteProperties, PropertiesFit;
    PropertiesHaveLen(OfPublish, properties);
    FieldHasLen(p.topic);
    var len := VarInt(Publish5Len(p, properties));
    var pkid := if p.qos.AtMostOnce? then [] else U16(p.pkid);
    WritesProperties(buffer + [PublishByte(p)] + len + BytesField(p.topic) + pkid, OfPublish, properties);
    var ps := PropertiesBytes(OfPublish, properties);
    assert buffer + [PublishByte(p)] + len + BytesField(p.topic) + pkid + ps + p.payload
           == buffer + ([PublishByte(p)] + len + (BytesField(p.topic) + pkid + ps + p.payload));
  }

  lemma FieldHasLen(t: Text)
    ensures |BytesField(t)| == 2 + |t|
  {
  }

  /** Reading a publish comes down to reading its properties and its payload. */
  lemma ReadsUpToProperties(h: FixedHeader, head: Text, p: Publish, properties: Option<Properties>)
    requires Publish5Fits(p, properties) && h.fixedHeaderLen == |head| && h.byte1 == PublishByte(p)
    ensures ReadPublish5(h, head + Publish5Body(p, properties)) ==
            match ReadProperties(OfPublish, PropertiesBytes(OfPublish, properties) + p.payload)
            case Err(e) => Err(e)
            case Ok((read, payload)) => Ok((Publish5AsSent(p).(payload := payload), read))
  {
    hide BytesField, U16, ReadU16, ReadBytes, PublishByte, Qos, PropertiesBytes, ReadProperties, PropertiesFit,
         Publish5Len;
    PublishBits(p);
    var frame := head + Publish5Body(p, properties);
    var tail := PropertiesBytes(OfPublish, properties) + p.payload;
    var more := (if p.qos.AtMostOnce? then [] else U16(p.pkid)) + tail;
    assert frame[h.fixedHeaderLen..] == BytesField(p.topic) + more;
    BytesRoundTrip(p.topic, more);
    if !p.qos.AtMostOnce? {
      U16RoundTrip(p.pkid, tail);
    } else {
      assert more == tail;
    }
  }

  /** The reader's cursor, one byte too far for each subscription identifier, stays before the end of the
      last property while there is one to read: the content type, or else the last identifier. */
  predicate ReadInTime(p: Properties) {
    var n := |p.subscriptions|;
    if CONTENT_TYPE in p.single then n < PropLen(Prop(CONTENT_TYPE, p.single[CONTENT_TYPE]))
    else n == 0 || n - 1 < 1 + LenLen(p.subscriptions[n - 1])
  }

  lemma {:induction false} PropsLenJoin(a: seq<Prop>, b: seq<Prop>)
    ensures PropsLen(a + b) == PropsLen(a) + PropsLen(b)
  {
    if a == [] {
      assert a + b == b;
    } else {
      PropsLenJoin(a[1..], b);
      assert (a + b)[1..] == a[1..] + b;
    }
  }

  /** Without identifiers, the cursor is right. */
  lemma {:induction false} ReadsPast(a: seq<Prop>, b: seq<Prop>)
    requires forall k :: 0 <= k < |a| ==> !a[k].value.Var? && PropLen(a[k]) > 0
    ensures ReadUpTo(a + b, 0) == |a| + ReadUpTo(b, 0)
  {
    hide PropLen;
    if a == [] {
      assert a + b == b;
    } else {
      ReadsPast(a[1..], b);
      assert (a + b)[1..] == a[1..] + b;
    }
  }

  /** With the cursor `ahead` of where it should be, these identifiers and what follows them are read to the
      end if and only if the cursor does not pass the last of them. */
  lemma {:induction false} IdentifiersInTime(ids: seq<nat>, tail: seq<Prop>, ahead: nat)
    requires |tail| <= 1 && forall k :: 0 <= k < |tail| ==> !tail[k].value.Var?
    ensures var n := |ids|;
            ReadUpTo(SubscriptionProps(ids) + tail, ahead) == n + |tail| <==>
            if tail != [] then ahead + n < PropLen(tail[0])
            else n == 0 || ahead + n - 1 < 1 + LenLen(ids[n - 1])
    decreases |ids|
  {
    hide LenLen;
    var all := SubscriptionProps(ids) + tail;
    if ids == [] {
      assert all == tail;
      assert tail != [] ==> tail[1..] == [];
    } else {
      var rest := ids[1..];
      assert all[1..] == SubscriptionProps(rest) + tail;
      IdentifiersInTime(rest, tail, ahead + 1);
      PropsLenJoin(SubscriptionProps(rest), tail);
      LastIdentifier(rest);
      assert tail != [] ==> tail[1..] == [];
    }
  }

  lemma {:induction false} LastIdentifier(ids: seq<nat>)
    ensures ids != [] ==> PropsLen(SubscriptionProps(ids)) >= 1 + LenLen(ids[|ids| - 1])
  {
    hide LenLen;
    if |ids| > 1 {
      LastIdentifier(ids[1..]);
      assert SubscriptionProps(ids)[1..] == SubscriptionProps(ids[1..]);
    }
  }

  /** What the writer lists: properties without identifiers, the identifiers, and the content type. */
  lemma PublishListed(p: Properties) returns (before: seq<Prop>, tail: seq<Prop>)
    requires Fits(OfPublish, p)
    ensures AsList(OfPublish, p) == before + (SubscriptionProps(p.subscriptions) + tail)
    ensures forall k :: 0 <= k < |before| ==> !before[k].value.Var? && PropLen(before[k]) > 0
    ensures tail == if CONTENT_TYPE in p.single then [Prop(CONTENT_TYPE, p.single[CONTENT_TYPE])] else []
    ensures CONTENT_TYPE in p.single ==> !p.single[CONTENT_TYPE].Var?
  {
    hide Fits;
    SinglesFit(OfPublish, p);
    var order := Order(OfPublish);
    before, tail := Listed(p, order[..6]), PropsFor(p, CONTENT_TYPE);
    assert order[..7][..6] == order[..6] && order[..8][..7] == order[..7] && order[..8] == order;
    assert Listed(p, order[..7]) == before + SubscriptionProps(p.subscriptions);
    assert Listed(p, order[..8]) == Listed(p, order[..7]) + tail;
    PlainListed(p, order[..6]);
  }

  lemma {:induction false} PlainListed(p: Properties, order: seq<Byte>)
    requires SinglesAreSingle(p) && SUBSCRIPTION !in order
    ensures forall k :: 0 <= k < |Listed(p, order)| ==>
              !Listed(p, order)[k].value.Var? && PropLen(Listed(p, order)[k]) > 0
  {
    if order != [] {
      PlainListed(p, order[..|order| - 1]);
    }
  }

  lemma InTimeIff(p: Properties)
    requires Fits(OfPublish, p)
    ensures ReadUpTo(AsList(OfPublish, p), 0) == |AsList(OfPublish, p)| <==> ReadInTime(p)
  {
    hide Fits, AsList, ReadUpTo, PropLen, LenLen;
    var before, tail := PublishListed(p);
    ReadsPast(before, SubscriptionProps(p.subscriptions) + tail);
    IdentifiersInTime(p.subscriptions, tail, 0);
  }

  /** A publish that has been written is read back if and only if its cursor stays in time: with a content
      type, if it has fewer identifiers than that takes bytes; without one, if all but the last are fewer
      than the last takes bytes.  Otherwise the last properties end up in its payload. */
  lemma Publish5RoundTripIff(h: FixedHeader, head: Text, p: Publish, properties: Option<Properties>)
    requires Publish5Fits(p, properties) && h.fixedHeaderLen == |head| && h.byte1 == PublishByte(p)
    ensures ReadPublish5(h, head + Publish5Body(p, properties)) ==
            Ok((Publish5AsSent(p), Present(OfPublish, properties)))
            <==> properties.None? || ReadInTime(properties.value)
  {
    hide ReadUpTo, ReadInTime, PropertiesBytes, ReadProperties, ReadPublish5, Publish5Len, AsList, PropsLen, PropsBytes,
         Fits, Gather, PropsFit;
    ReadsUpToProperties(h, head, p, properties);
    if properties.Some? {
      InTimeIff(properties.value);
    }
    if properties.None? || ReadInTime(properties.value) {
      PropertiesRoundTrip(OfPublish, properties, p.payload);
    } else {
      var ps := AsList(OfPublish, properties.value);
      var n := ReadUpTo(ps, 0);
      AsListFits(OfPublish, properties.value);
      PropsHaveLen(OfPublish, ps);
      PropertiesReadBack(OfPublish, properties.value, p.payload);
      LeftOver(ps, n);
    }
  }

  lemma LeftOver(ps: seq<Prop>, n: nat)
    requires n < |ps|
    ensures |PropsBytes(ps[n..])| > 0
  {
    hide ValueBytes;
  }

  /** With the one subscription identifier that the router attaches at most, a publish is read back. */
  lemma Publish5RoundTrip(h: FixedHeader, head: Text, p: Publish, properties: Option<Properties>)
    requires Publish5Fits(p, properties) && h.fixedHeaderLen == |head| && h.byte1 == PublishByte(p)
    requires properties.Some? ==> |properties.value.subscriptions| <= 1
    ensures ReadPublish5(h, head + Publish5Body(p, properties)) ==
            Ok((Publish5AsSent(p), Present(OfPublish, properties)))
  {
    hide ReadPublish5, Publish5Body;
    Publish5RoundTripIff(h, head, p, properties);
    if properties.Some? && CONTENT_TYPE in properties.value.single {
      assert PropFits(OfPublish, Prop(CONTENT_TYPE, properties.value.single[CONTENT_TYPE]));
    }
  }

  /** Three small subscription identifiers and no content type are one too many for the reader. */
  lemma ThirdSubscriptionIsLost(h: FixedHeader, head: Text, p: Publish, a: nat, b: nat, c: nat)
    requires a < 128 && b < 128 && c < 128
    requires h.fixedHeaderLen == |head| && h.byte1 == PublishByte(p)
    requires Publish5Fits(p, Some(Properties(map[], [], [a, b, c])))
    ensures var properties := Some(Properties(map[], [], [a, b, c]));
            ReadPublish5(h, head + Publish5Body(p, properties)) !=
            Ok((Publish5AsSent(p), Present(OfPublish, properties)))
  {
    hide ReadPublish5, Publish5Body, Present, Publish5Fits;
    Publish5RoundTripIff(h, head, p, Some(Properties(map[], [], [a, b, c])));
  }

  // ---------------------------------------------------------------- CONNECT

  datatype Will = Will(topic: Text, message: Text, qos: QoS, retain: bool)

  datatype Login = Login(username: Text, password: Text)

  datatype Connect = Connect(
    keepAlive: PacketId, clientId: Text, clean: bool, properties: Option<Properties>,
    will: Option<Will>, willProperties: Option<Properties>, login: Option<Login>)

  /** "MQTT" */
  const PROTOCOL: Text := [77, 81, 84, 84]

  function WillFlags(w: Option<Will>): Byte {
    if w.None? then 0 else 4 + 8 * QosNum(w.value.qos) + 32 * Bit(w.value.retain)
  }

  function LoginFlags(l: Option<Login>): Byte {
    if l.None? then 0 else 128 * Bit(l.value.username != []) + 64 * Bit(l.value.password != [])
  }

  function Flags(c: Connect): Byte { 2 * Bit(c.clean) + WillFlags(c.will) + LoginFlags(c.login) }

  function WillLen(w: Option<Will>, properties: Option<Properties>): nat {
    if w.None? then 0 else PropertiesLen(OfWill, properties) + 2 + |w.value.topic| + 2 + |w.value.message|
  }

  function WillBytes(w: Option<Will>, properties: Option<Properties>): Text {
    if w.None? then []
    else PropertiesBytes(OfWill, properties) + BytesField(w.value.topic) + BytesField(w.value.message)
  }

  /** An empty user name or password is left out. */
  function LoginText(t: Text): Text { if t == [] then [] else BytesField(t) }

  function LoginBytes(l: Option<Login>): Text {
    if l.None? then [] else LoginText(l.value.username) + LoginText(l.value.password)
  }

  function LoginLen(l: Option<Login>): nat {
    if l.None? then 0
    else (if l.value.username == [] then 0 else 2 + |l.value.username|)
         + (if l.value.password == [] then 0 else 2 + |l.value.password|)
  }

  function ConnectLen(c: Connect): nat {
    2 + |PROTOCOL| + 1 + 1 + 2 + PropertiesLen(OfConnect, c.properties) + 2 + |c.clientId|
    + WillLen(c.will, c.willProperties) + LoginLen(c.login)
  }

  /** What follows the flags. */
  function ConnectTail(c: Connect): Text {
    U16(c.keepAlive) + PropertiesBytes(OfConnect, c.properties) + BytesField(c.clientId)
    + WillBytes(c.will, c.willProperties) + LoginBytes(c.login)
  }

  function ConnectBody(c: Connect, flags: Byte): Text { BytesField(PROTOCOL) + [5, flags] + ConnectTail(c) }

  /** The writer puts the flags it knows at first, and in the end all of them, at an index that it counts
      from the beginning of the buffer. */
  function WriteConnect(buffer: Text, c: Connect): (Text, Result<nat>)
  {
    var len := ConnectLen(c);
    var head := buffer + [0x10];
    if len > MAX_LENGTH then (head, Err(PayloadTooLong))
    else
      var written := head + VarInt(len) + ConnectBody(c, 2 * Bit(c.clean));
      (written[1 + |VarInt(len)| + 2 + 4 + 1 := Flags(c)], Ok(1 + |VarInt(len)| + len))
  }

  function ReadWill(flags: Byte, bytes: Text): Result<((Option<Will>, Option<Properties>), Text)> {
    if flags / 4 % 2 == 0 then
      if flags / 8 % 8 != 0 then Err(IncorrectPacketFormat) else Ok(((None, None), bytes))
    else
      match ReadProperties(OfWill, bytes)
      case Err(e) => Err(e)
      case Ok((properties, rest1)) =>
        match ReadBytes(rest1)
        case Err(e) => Err(e)
        case Ok((topic, rest2)) =>
          match ReadBytes(rest2)
          case Err(e) => Err(e)
          case Ok((message, rest3)) =>
            match Qos(flags / 8 % 4)
            case None => Err(InvalidQoS(flags / 8 % 4))
            case Some(qos) => Ok(((Some(Will(topic, message, qos, flags / 32 % 2 == 1)), properties), rest3))
  }

  function ReadText(there: bool, bytes: Text): Result<(Text, Text)> {
    if there then ReadString(bytes) else Ok(([], bytes))
  }

  function ReadLogin(flags: Byte, bytes: Text): Result<Option<Login>> {
    match ReadText(flags / 128 % 2 == 1, bytes)
    case Err(e) => Err(e)
    case Ok((username, rest)) =>
      match ReadText(flags / 64 % 2 == 1, rest)
      case Err(e) => Err(e)
      case Ok((password, _)) => Ok(if username == [] && password == [] then None else Some(Login(username, password)))
  }

  /** What follows the flags, read. */
  function ReadTail(flags: Byte, bytes: Text): Result<Connect> {
    match ReadU16(bytes)
    case Err(e) => Err(e)
    case Ok((keepAlive, rest1)) =>
      match ReadProperties(OfConnect, rest1)
      case Err(e) => Err(e)
      case Ok((properties, rest2)) =>
        match ReadString(rest2)
        case Err(e) => Err(e)
        case Ok((clientId, rest3)) =>
          match ReadWill(flags, rest3)
          case Err(e) => Err(e)
          case Ok(((will, willProperties), rest4)) =>
            match ReadLogin(flags, rest4)
            case Err(e) => Err(e)
            case Ok(login) =>
              Ok(Connect(keepAlive, clientId, flags / 2 % 2 == 1, properties, will, willProperties, login))
  }

  function ReadConnect(h: FixedHeader, frame: Text): Result<Connect>
    requires h.fixedHeaderLen <= |frame|
  {
    match ReadString(frame[h.fixedHeaderLen..])
    case Err(e) => Err(e)
    case Ok((name, rest1)) =>
      match ReadU8(rest1)
      case Err(e) => Err(e)
      case Ok((level, rest2)) =>
        if name != PROTOCOL then Err(InvalidProtocol)
        else if level != 5 then Err(InvalidProtocolLevel(level))
        else
          match ReadU8(rest2) case Ok((flags, rest3)) => ReadTail(flags, rest3) case Err(e) => Err(e)
  }

  ghost predicate ConnectFits(c: Connect) {
    && Field(c.clientId) && ConnectLen(c) <= MAX_LENGTH
    && PropertiesFit(OfConnect, c.properties) && PropertiesFit(OfWill, c.willProperties)
    && (c.properties.Some? ==> c.properties.value.subscriptions == [])
    && (c.willProperties.Some? ==> c.willProperties.value.subscriptions == [])
    && (c.will.Some? ==> |c.will.value.topic| < 0x1_0000 && |c.will.value.message| < 0x1_0000)
    && (c.login.Some? ==> Field(c.login.value.username) && Field(c.login.value.password))
  }

  /** What is read back: records without properties and a login without user and password are none, and
      the properties of a will need a will. */
  function ConnectAsRead(c: Connect): Connect {
    c.(properties := Present(OfConnect, c.properties),
       willProperties := if c.will.Some? then Present(OfWill, c.willProperties) else None,
       login := if c.login == Some(Login([], [])) then None else c.login)
  }

  // ---------------------------------------------------------------- CONNECT is read back

  lemma SumOfBits(a: nat, b: nat, q: nat, r: nat, p: nat, u: nat)
    requires a <= 1 && b <= 1 && q <= 3 && r <= 1 && p <= 1 && u <= 1
    ensures var f := 2 * a + 4 * b + 8 * q + 32 * r + 64 * p + 128 * u;
            f / 2 % 2 == a && f / 4 % 2 == b && f / 8 % 4 == q && f / 32 % 2 == r && f / 64 % 2 == p && f / 128 % 2 == u
  {
    var f := 2 * a + 4 * b + 8 * q + 32 * r + 64 * p + 128 * u;
    assert f / 2 == a + 2 * (b + 2 * q + 8 * r + 16 * p + 32 * u);
    assert f / 4 == b + 2 * (q + 4 * r + 8 * p + 16 * u);
    assert f / 8 == q + 4 * (r + 2 * p + 4 * u);
    assert f / 32 == r + 2 * (p + 2 * u);
    assert f / 64 == p + 2 * u;
  }

  /** The flags keep their meanings apart. */
  lemma FlagBits(c: Connect)
    ensures Flags(c) / 2 % 2 == Bit(c.clean)
    ensures Flags(c) / 4 % 2 == Bit(c.will.Some?)
    ensures c.will.None? ==> Flags(c) / 8 % 8 == 0
    ensures c.will.Some? ==>
            Flags(c) / 8 % 4 == QosNum(c.will.value.qos) && Flags(c) / 32 % 2 == Bit(c.will.value.retain)
    ensures Flags(c) / 128 % 2 == Bit(c.login.Some? && c.login.value.username != [])
    ensures Flags(c) / 64 % 2 == Bit(c.login.Some? && c.login.value.password != [])
  {
    hide Flags, WillFlags, LoginFlags, Bit, QosNum;
    var w := c.will.Some?;
    var q := if w then QosNum(c.will.value.qos) else 0;
    var r := if w then Bit(c.will.value.retain) else 0;
    var p := Bit(c.login.Some? && c.login.value.password != []);
    var u := Bit(c.login.Some? && c.login.value.username != []);
    FlagsAreBits(c, q, r, p, u);
    SumOfBits(Bit(c.clean), Bit(w), q, r, p, u);
    if !w {
      NoWillBits(Bit(c.clean), p, u);
    }
  }

  lemma NoWillBits(a: nat, p: nat, u: nat)
    requires a <= 1 && p <= 1 && u <= 1
    ensures (2 * a + 64 * p + 128 * u) / 8 % 8 == 0
  {
    assert (2 * a + 64 * p + 128 * u) / 8 == 8 * (p + 2 * u);
  }

  lemma FlagsAreBits(c: Connect, q: nat, r: nat, p: nat, u: nat)
    requires q == if c.will.Some? then QosNum(c.will.value.qos) else 0
    requires r == if c.will.Some? then Bit(c.will.value.retain) else 0
    requires p == Bit(c.login.Some? && c.login.value.password != [])
    requires u == Bit(c.login.Some? && c.login.value.username != [])
    ensures Flags(c) == 2 * Bit(c.clean) + 4 * Bit(c.will.Some?) + 8 * q + 32 * r + 64 * p + 128 * u
    ensures c.will.None? ==> Flags(c) == 2 * Bit(c.clean) + 64 * p + 128 * u
  {
  }

  lemma NoSubscriptionsInTime(o: Owner, p: Option<Properties>, rest: Text)
    requires PropertiesFit(o, p) && (p.Some? ==> p.value.subscriptions == [])
    ensures ReadProperties(o, PropertiesBytes(o, p) + rest) == Ok((Present(o, p), rest))
  {
    hide Fits, AsList, ReadUpTo, ReadProperties, PropertiesBytes;
    if p.Some? {
      OneSubscriptionIsInTime(o, p.value);
    }
    PropertiesRoundTrip(o, p, rest);
  }

  lemma WillRoundTrip(c: Connect, rest: Text)
    requires ConnectFits(c)
    ensures ReadWill(Flags(c), WillBytes(c.will, c.willProperties) + rest)
            == Ok(((c.will, ConnectAsRead(c).willProperties), rest))
  {
    hide PropertiesFit, Flags, PropertiesBytes, ReadProperties, BytesField, ReadBytes, Field, ConnectLen;
    FlagBits(c);
    if c.will.Some? {
      var w := c.will.value;
      var message := BytesField(w.message) + rest;
      var topic := BytesField(w.topic) + message;
      assert WillBytes(c.will, c.willProperties) + rest == PropertiesBytes(OfWill, c.willProperties) + topic;
      NoSubscriptionsInTime(OfWill, c.willProperties, topic);
      BytesRoundTrip(w.topic, message);
      BytesRoundTrip(w.message, rest);
    } else {
      assert [] + rest == rest;
    }
  }

  lemma TextRoundTrip(t: Text, rest: Text)
    requires Field(t)
    ensures ReadText(t != [], LoginText(t) + rest) == Ok((t, rest))
  {
    hide BytesField, ReadString;
    if t != [] {
      StringRoundTrip(t, rest);
    } else {
      assert [] + rest == rest;
    }
  }

  lemma LoginRoundTrip(c: Connect)
    requires ConnectFits(c)
    ensures ReadLogin(Flags(c), LoginBytes(c.login)) == Ok(ConnectAsRead(c).login)
  {
    hide PropertiesFit, Flags, Qos, LoginText, ReadText, Field, ConnectLen;
    FlagBits(c);
    if c.login.Some? {
      var l := c.login.value;
      assert LoginText(l.password) + [] == LoginText(l.password);
      TextRoundTrip(l.username, LoginText(l.password));
      TextRoundTrip(l.password, []);
    } else {
      NoText([]);
    }
  }

  lemma NoText(bytes: Text)
    ensures ReadText(false, bytes) == Ok(([], bytes))
  {
  }

  lemma TailRoundTrip(c: Connect)
    requires ConnectFits(c)
    ensures ReadTail(Flags(c), ConnectTail(c)) == Ok(ConnectAsRead(c))
  {
    hide Flags, U16, ReadU16, PropertiesBytes, ReadProperties, BytesField, ReadString, WillBytes, ReadWill, LoginBytes,
         ReadLogin, PropertiesFit, Field, ConnectLen;
    FlagBits(c);
    var login := LoginBytes(c.login);
    var will := WillBytes(c.will, c.willProperties) + login;
    var client := BytesField(c.clientId) + will;
    var properties := PropertiesBytes(OfConnect, c.properties) + client;
    assert ConnectTail(c) == U16(c.keepAlive) + properties;
    U16RoundTrip(c.keepAlive, properties);
    NoSubscriptionsInTime(OfConnect, c.properties, client);
    StringRoundTrip(c.clientId, will) by { FieldOf(c.clientId); }
    WillRoundTrip(c, login);
    LoginRoundTrip(c);
  }

  lemma FieldOf(t: Text)
    requires Field(t)
    ensures |t| < 0x1_0000 && Utf8(t)
  {
  }

  lemma ProtocolIsField()
    ensures Field(PROTOCOL) && |PROTOCOL| == 4
  {
    assert Utf8([84]) by { assert [84][1..] == []; }
    assert PROTOCOL[1..] == [81, 84, 84] && [81, 84, 84][1..] == [84, 84] && [84, 84][1..] == [84];
    assert Utf8([84, 84]);
    assert Utf8([81, 84, 84]);
  }

  lemma BodyRoundTrip(h: FixedHeader, head: Text, c: Connect)
    requires ConnectFits(c) && h.fixedHeaderLen == |head|
    ensures ReadConnect(h, head + ConnectBody(c, Flags(c))) == Ok(ConnectAsRead(c))
  {
    hide Flags, ConnectTail, ReadTail, BytesField, ReadString, ConnectFits, Utf8;
    ProtocolIsField();
    var body := ConnectBody(c, Flags(c));
    assert (head + body)[h.fixedHeaderLen..] == body;
    var rest := [5, Flags(c)] + ConnectTail(c);
    assert body == BytesField(PROTOCOL) + rest;
    StringRoundTrip(PROTOCOL, rest);
    assert rest[1..][0] == Flags(c) && rest[1..][1..] == ConnectTail(c);
    TailRoundTrip(c);
  }

  lemma TailHasLen(c: Connect)
    requires ConnectFits(c)
    ensures |ConnectTail(c)| + 8 == ConnectLen(c)
  {
    hide PropertiesBytes, PropertiesLen, PropertiesFit, BytesField, Field;
    PropertiesHaveLen(OfConnect, c.properties);
    PropertiesHaveLen(OfWill, c.willProperties);
    FieldHasLen(c.clientId);
    if c.will.Some? {
      FieldHasLen(c.will.value.topic);
      FieldHasLen(c.will.value.message);
    }
    if c.login.Some? {
      FieldHasLen(c.login.value.username);
      FieldHasLen(c.login.value.password);
    }
  }

  lemma BodyHasConnectLen(c: Connect, flags: Byte, f: Byte)
    requires ConnectFits(c)
    ensures 8 <= |ConnectBody(c, flags)| == ConnectLen(c)
    ensures ConnectBody(c, flags)[7] == flags
    ensures ConnectBody(c, flags)[7 := f] == ConnectBody(c, f)
  {
    hide ConnectTail, ConnectFits, ConnectLen;
    TailHasLen(c);
    FieldHasLen(PROTOCOL);
    ProtocolIsField();
  }

  function FlagsIndex(c: Connect): nat { 1 + |VarInt(ConnectLen(c))| + 2 + 4 + 1 }

  /** The frame with other flags is the frame with that one byte changed. */
  lemma FlagsInFrame(c: Connect, f: Byte, g: Byte)
    requires ConnectFits(c)
    ensures FlagsIndex(c) < |Frame(0x10, ConnectBody(c, f))| && Frame(0x10, ConnectBody(c, f))[FlagsIndex(c)] == f
    ensures Frame(0x10, ConnectBody(c, f))[FlagsIndex(c) := g] == Frame(0x10, ConnectBody(c, g))
    ensures Frame(0x10, ConnectBody(c, f)) == [0x10] + VarInt(ConnectLen(c)) + ConnectBody(c, f)
  {
    hide VarInt, ConnectBody, ConnectLen, ConnectFits;
    BodyHasConnectLen(c, f, g);
    BodyHasConnectLen(c, g, f);
    var head := [0x10] + VarInt(ConnectLen(c));
    assert (head + ConnectBody(c, f))[|head| + 7 := g] == head + ConnectBody(c, f)[7 := g];
  }

  /** Into an empty buffer, CONNECT is written as one frame with the right flags; the length declared and
      the count returned are those of the bytes written. */
  lemma WritesConnect(c: Connect)
    requires ConnectFits(c)
    ensures var frame := Frame(0x10, ConnectBody(c, Flags(c)));
            WriteConnect([], c) == (frame, Ok(|frame|)) && |ConnectBody(c, Flags(c))| == ConnectLen(c)
  {
    hide VarInt, ConnectBody, ConnectLen, Flags;
    BodyHasConnectLen(c, Flags(c), Flags(c));
    FlagsInFrame(c, 2 * Bit(c.clean), Flags(c));
    var written := [0x10] + VarInt(ConnectLen(c)) + ConnectBody(c, 2 * Bit(c.clean));
    assert [] + [0x10] == [0x10];
  }

  /** Behind something else in the buffer, the index for the flags is wrong: the frame comes out right only
      if there was nothing to correct, and the byte that is overwritten happens to have that value. */
  lemma ConnectNeedsEmptyBuffer(buffer: Text, c: Connect)
    requires ConnectFits(c)
    ensures var first: Byte := 2 * Bit(c.clean);
            var written := buffer + Frame(0x10, ConnectBody(c, first));
            && FlagsIndex(c) < |written|
            && (WriteConnect(buffer, c).0 == buffer + Frame(0x10, ConnectBody(c, Flags(c))) <==>
                buffer == [] || (Flags(c) == first && written[FlagsIndex(c)] == first))
  {
    hide VarInt, ConnectBody, ConnectLen, Flags, Frame;
    var first: Byte := 2 * Bit(c.clean);
    var frame, i, f := Frame(0x10, ConnectBody(c, first)), FlagsIndex(c), Flags(c);
    FlagsInFrame(c, first, f);
    ConnectIsShort(c);
    var written := buffer + frame;
    assert buffer + [0x10] + VarInt(ConnectLen(c)) + ConnectBody(c, first) == written;
    assert WriteConnect(buffer, c).0 == written[i := f];
    assert buffer + frame[i := f] == written[|buffer| + i := f];
    Overwritten(written, i, |buffer| + i, f);
  }

  lemma ConnectIsShort(c: Connect)
    requires ConnectFits(c)
    ensures ConnectLen(c) <= MAX_LENGTH
  {
  }

  lemma Overwritten(s: Text, i: nat, j: nat, f: Byte)
    requires i <= j < |s|
    ensures s[i := f] == s[j := f] <==> i == j || (s[i] == f && s[j] == f)
  {
    if s[i] == f && s[j] == f {
      assert s[i := f] == s && s[j := f] == s;
    }
    if s[i := f] == s[j := f] {
      assert s[i := f][i] == s[j := f][i] && s[i := f][j] == s[j := f][j];
    }
  }

  /** What CONNECT is written as into an empty buffer is read back. */
  lemma ConnectRoundTrip(c: Connect)
    requires ConnectFits(c)
    ensures var head := [0x10] + VarInt(ConnectLen(c));
            ReadConnect(FixedHeader(0x10, |head|, ConnectLen(c)), head + ConnectBody(c, Flags(c))) ==
              Ok(ConnectAsRead(c))
  {
    hide VarInt, ConnectFits, ConnectLen, ReadConnect, ConnectBody, Flags;
    var head := [0x10] + VarInt(ConnectLen(c));
    BodyRoundTrip(FixedHeader(0x10, |head|, ConnectLen(c)), head, c);
  }
}
