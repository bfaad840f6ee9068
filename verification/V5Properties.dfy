/** The properties of MQTT 5.0.  A record of properties is kept by property number: what each single
    property holds, the user properties, and the subscription identifiers. */
module V5Properties {
  import opened Basics
  import opened Wire
  import opened V4

  datatype Owner = OfPublish | OfConnect | OfWill

  datatype Shape = Byte1 | Byte2 | Byte4 | AString | Binary | AStringPair | AVarInt

  datatype Value =
    | Num1(byte: Byte) | Num2(short: PacketId) | Num4(long: U32) | Str(text: Text) | Bin(data: Text)
    | Pair(key: Text, value: Text) | Var(number: nat)

  datatype Prop = Prop(id: Byte, value: Value)

  datatype Properties = Properties(single: map<Byte, Value>, user: seq<(Text, Text)>, subscriptions: seq<nat>)

  const NO_PROPERTIES: Properties := Properties(map[], [], [])

  const USER: Byte := 38
  const SUBSCRIPTION: Byte := 11
  const CONTENT_TYPE: Byte := 3

  /** The properties a packet may carry, and their shapes. */
  function ShapeOf(o: Owner, id: Byte): Option<Shape> {
    match o
    case OfPublish =>
      if id == 1 then Some(Byte1) else if id == 2 then Some(Byte4) else if id == 35 then Some(Byte2)
      else if id == 8 || id == 3 then Some(AString) else if id == 9 then Some(Binary)
      else if id == USER then Some(AStringPair) else if id == SUBSCRIPTION then Some(AVarInt) else None
    case OfConnect =>
      if id == 17 || id == 39 then Some(Byte4) else if id == 33 || id == 34 then Some(Byte2)
      else if id == 25 || id == 23 then Some(Byte1) else if id == USER then Some(AStringPair)
      else if id == 21 then Some(AString) else if id == 22 then Some(Binary) else None
    case OfWill =>
      if id == 24 || id == 2 then Some(Byte4) else if id == 1 then Some(Byte1)
      else if id == 3 || id == 8 then Some(AString) else if id == 9 then Some(Binary)
      else if id == USER then Some(AStringPair) else None
  }

  /** The order in which the writer puts them. */
  function Order(o: Owner): seq<Byte> {
    match o
    case OfPublish => [1, 2, 35, 8, 9, USER, SUBSCRIPTION, 3]
    case OfConnect => [17, 33, 39, 34, 25, 23, USER, 21, 22]
    case OfWill => [24, 1, 2, 3, 8, 9, USER]
  }

  // ---------------------------------------------------------------- one property

  function ValueBytes(v: Value): Text {
    match v
    case Num1(n) => [n]
    case Num2(n) => U16(n)
    case Num4(n) => U32Bytes(n)
    case Str(t) => BytesField(t)
    case Bin(b) => BytesField(b)
    case Pair(k, w) => BytesField(k) + BytesField(w)
    case Var(n) => VarInt(n)
  }

  function PropBytes(p: Prop): Text { [p.id] + ValueBytes(p.value) }

  /** The length the writer counts for a property. */
  function PropLen(p: Prop): nat {
    match p.value
    case Num1(_) => 2
    case Num2(_) => 3
    case Num4(_) => 5
    case Str(t) => 3 + |t|
    case Bin(b) => 3 + |b|
    case Pair(k, w) => 5 + |k| + |w|
    case Var(n) => 1 + LenLen(n)
  }

  /** How far the reader's cursor moves for a property: for a subscription identifier, whose number has
      been counted already, it counts one byte too many. */
  function CursorStep(p: Prop): nat { PropLen(p) + if p.value.Var? then 1 else 0 }

  function ReadValue(shape: Shape, bytes: Text): Result<(Value, Text)> {
    match shape
    case Byte1 => (match ReadU8(bytes) case Ok((n, rest)) => Ok((Num1(n), rest)) case Err(e) => Err(e))
    case Byte2 => (match ReadU16(bytes) case Ok((n, rest)) => Ok((Num2(n), rest)) case Err(e) => Err(e))
    case Byte4 => (match ReadU32(bytes) case Ok((n, rest)) => Ok((Num4(n), rest)) case Err(e) => Err(e))
    case AString => (match ReadString(bytes) case Ok((t, rest)) => Ok((Str(t), rest)) case Err(e) => Err(e))
    case Binary => (match ReadBytes(bytes) case Ok((b, rest)) => Ok((Bin(b), rest)) case Err(e) => Err(e))
    case AStringPair =>
      (match ReadString(bytes)
       case Err(e) => Err(e)
       case Ok((k, more)) =>
         match ReadString(more) case Ok((w, rest)) => Ok((Pair(k, w), rest)) case Err(e) => Err(e))
    case AVarInt =>
      match Length(bytes)
      case Err(e) => Err(e)
      case Ok((count, n)) => LengthIsBounded(bytes); Ok((Var(n), bytes[count..]))
  }

  function ReadProp(o: Owner, bytes: Text): Result<(Prop, Text)> {
    match ReadU8(bytes)
    case Err(e) => Err(e)
    case Ok((id, rest)) =>
      match ShapeOf(o, id)
      case None => Err(InvalidPropertyType(id))
      case Some(shape) =>
        match ReadValue(shape, rest) case Ok((v, more)) => Ok((Prop(id, v), more)) case Err(e) => Err(e)
  }

  lemma ReadPropTakes(o: Owner, bytes: Text)
    ensures ReadProp(o, bytes).Ok? ==> |ReadProp(o, bytes).value.1| < |bytes|
  {
    if bytes != [] && ShapeOf(o, bytes[0]).Some? {
      ReadValueTakes(ShapeOf(o, bytes[0]).value, bytes[1..]);
    }
  }

  lemma ReadValueTakes(shape: Shape, bytes: Text)
    ensures ReadValue(shape, bytes).Ok? ==> |ReadValue(shape, bytes).value.1| <= |bytes|
  {
    LengthIsBounded(bytes);
  }

  // ---------------------------------------------------------------- a list of properties

  function PropsBytes(ps: seq<Prop>): Text {
    if ps == [] then [] else PropBytes(ps[0]) + PropsBytes(ps[1..])
  }

  function PropsLen(ps: seq<Prop>): nat {
    if ps == [] then 0 else PropLen(ps[0]) + PropsLen(ps[1..])
  }

  /** Reads properties until the cursor reaches the length. */
  function ReadProps(o: Owner, bytes: Text, cursor: nat, len: nat): Result<(seq<Prop>, Text)>
    decreases |bytes|
  {
    if cursor >= len then Ok(([], bytes))
    else
      match ReadProp(o, bytes)
      case Err(e) => Err(e)
      case Ok((p, rest)) =>
        ReadPropTakes(o, bytes);
        match ReadProps(o, rest, cursor + CursorStep(p), len)
        case Err(e) => Err(e)
        case Ok((ps, more)) => Ok(([p] + ps, more))
  }

  /** The loop of the reader. */
  method ReadPropsLoop(o: Owner, start: Text, len: nat) returns (r: Result<(seq<Prop>, Text)>)
    ensures r == ReadProps(o, start, 0, len)
  {
    hide ReadProp, CursorStep;
    var bytes, cursor: nat, props := start, 0, [];
    assert ReadProps(o, start, 0, len).Ok? ==>
             [] + ReadProps(o, start, 0, len).value.0 == ReadProps(o, start, 0, len).value.0;
    while cursor < len
      invariant ReadProps(o, start, 0, len) ==
                match ReadProps(o, bytes, cursor, len)
                case Err(e) => Err(e)
                case Ok((ps, more)) => Ok((props + ps, more))
      decreases |bytes|
    {
      ReadPropTakes(o, bytes);
      var next := ReadProp(o, bytes);
      if next.Err? {
        return Err(next.error);
      }
      var (p, rest) := next.value;
      ghost var later := ReadProps(o, rest, cursor + CursorStep(p), len);
      assert later.Ok? ==> props + ([p] + later.value.0) == props + [p] + later.value.0;
      props := props + [p];
      cursor := cursor + CursorStep(p);
      bytes := rest;
    }
    assert props + [] == props;
    r := Ok((props, bytes));
  }

  // ---------------------------------------------------------------- reading back a list

  predicate ShapeFits(shape: Shape, v: Value) {
    match shape
    case Byte1 => v.Num1?
    case Byte2 => v.Num2?
    case Byte4 => v.Num4?
    case AString => v.Str? && Field(v.text)
    case Binary => v.Bin? && |v.data| < 0x1_0000
    case AStringPair => v.Pair? && Field(v.key) && Field(v.value)
    case AVarInt => v.Var? && v.number <= MAX_LENGTH
  }

  predicate PropFits(o: Owner, p: Prop) {
    ShapeOf(o, p.id).Some? && ShapeFits(ShapeOf(o, p.id).value, p.value)
  }

  predicate PropsFit(o: Owner, ps: seq<Prop>) {
    forall k :: 0 <= k < |ps| ==> PropFits(o, ps[k])
  }

  lemma ValueRoundTrip(shape: Shape, v: Value, rest: Text)
    requires ShapeFits(shape, v)
    ensures ReadValue(shape, ValueBytes(v) + rest) == Ok((v, rest))
  {
    hide BytesField, U16, U32Bytes, VarInt, ReadString, ReadBytes, Utf8, Length, ReadU16, ReadU32;
    match v
    case Num1(n) => assert ([n] + rest)[1..] == rest;
    case Num2(n) => U16RoundTrip(n, rest);
    case Num4(n) => U32RoundTrip(n, rest);
    case Str(t) => StringRoundTrip(t, rest);
    case Bin(b) => BytesRoundTrip(b, rest);
    case Pair(k, w) =>
      StringRoundTrip(k, BytesField(w) + rest);
      assert BytesField(k) + BytesField(w) + rest == BytesField(k) + (BytesField(w) + rest);
      StringRoundTrip(w, rest);
    case Var(n) =>
      LengthRoundTrip(n, rest);
      VarIntLen(n);
      assert (VarInt(n) + rest)[LenLen(n)..] == rest;
  }

  lemma PropRoundTrip(o: Owner, p: Prop, rest: Text)
    requires PropFits(o, p)
    ensures ReadProp(o, PropBytes(p) + rest) == Ok((p, rest))
  {
    hide ValueBytes, ReadValue, ShapeFits, ShapeOf;
    var bytes := PropBytes(p) + rest;
    assert bytes[1..] == ValueBytes(p.value) + rest;
    ValueRoundTrip(ShapeOf(o, p.id).value, p.value, rest);
  }

  lemma PropHasLen(o: Owner, p: Prop)
    requires PropFits(o, p)
    ensures |PropBytes(p)| == PropLen(p) >= 2
  {
    if p.value.Var? {
      VarIntLen(p.value.number);
    }
  }

  lemma {:induction false} PropsHaveLen(o: Owner, ps: seq<Prop>)
    requires PropsFit(o, ps)
    ensures |PropsBytes(ps)| == PropsLen(ps) >= 2 * |ps|
  {
    hide PropFits, PropBytes, PropLen;
    if ps != [] {
      PropHasLen(o, ps[0]);
      PropsHaveLen(o, ps[1..]);
    }
  }

  /** How many of the properties are read before the cursor runs past the end. */
  function ReadUpTo(ps: seq<Prop>, ahead: nat): (n: nat)
    ensures n <= |ps|
  {
    if ps == [] || ahead >= PropsLen(ps) then 0
    else 1 + ReadUpTo(ps[1..], ahead + if ps[0].value.Var? then 1 else 0)
  }

  /** What reading gives, exactly: the properties up to the point where the cursor runs past the end; the
      bytes of the others are left in the stream, in front of what follows. */
  lemma {:induction false} PropsReadBack(o: Owner, ps: seq<Prop>, rest: Text, cursor: nat, ahead: nat, len: nat)
    requires PropsFit(o, ps) && cursor + PropsLen(ps) == len + ahead
    ensures ReadProps(o, PropsBytes(ps) + rest, cursor, len) ==
            Ok((ps[..ReadUpTo(ps, ahead)], PropsBytes(ps[ReadUpTo(ps, ahead)..]) + rest))
    decreases |ps|
  {
    hide PropFits, PropBytes, ReadProp, PropLen, ReadProps, PropsBytes;
    var n := ReadUpTo(ps, ahead);
    if ps == [] || ahead >= PropsLen(ps) {
      ReadsNone(o, PropsBytes(ps) + rest, cursor, len);
      assert ps[..0] == [] && ps[0..] == ps;
    } else {
      var p, later := ps[0], ps[1..];
      var more := ahead + if p.value.Var? then 1 else 0;
      FirstBytes(ps, rest);
      PropRoundTrip(o, p, PropsBytes(later) + rest);
      PropsReadBack(o, later, rest, cursor + CursorStep(p), more, len);
      ReadsFirst(o, p, PropsBytes(later) + rest, cursor, len);
      assert n == 1 + ReadUpTo(later, more);
      OneMore(ps, ReadUpTo(later, more));
    }
  }

  lemma OneMore(ps: seq<Prop>, n: nat)
    requires ps != [] && n < |ps|
    ensures [ps[0]] + ps[1..][..n] == ps[..n + 1] && ps[1..][n..] == ps[n + 1..]
  {
  }

  lemma ReadsNone(o: Owner, bytes: Text, cursor: nat, len: nat)
    requires cursor >= len
    ensures ReadProps(o, bytes, cursor, len) == Ok(([], bytes))
  {
  }

  lemma FirstBytes(ps: seq<Prop>, rest: Text)
    requires ps != []
    ensures PropsBytes(ps) + rest == PropBytes(ps[0]) + (PropsBytes(ps[1..]) + rest)
  {
  }

  lemma ReadsFirst(o: Owner, p: Prop, more: Text, cursor: nat, len: nat)
    requires cursor < len && ReadProp(o, PropBytes(p) + more) == Ok((p, more))
    ensures ReadProps(o, PropBytes(p) + more, cursor, len) ==
            match ReadProps(o, more, cursor + CursorStep(p), len)
            case Err(e) => Err(e)
            case Ok((ps, rest)) => Ok(([p] + ps, rest))
  {
    hide ReadProp, PropBytes, CursorStep;
  }

  /** With at most one subscription identifier, the cursor never runs past the end. */
  lemma {:induction false} OneAheadIsInTime(o: Owner, ps: seq<Prop>, ahead: nat)
    requires PropsFit(o, ps) && ahead + Vars(ps) <= 1
    ensures ReadUpTo(ps, ahead) == |ps|
    decreases |ps|
  {
    hide PropFits;
    if ps != [] {
      PropsHaveLen(o, ps);
      OneAheadIsInTime(o, ps[1..], ahead + if ps[0].value.Var? then 1 else 0);
    }
  }

  function Vars(ps: seq<Prop>): nat {
    if ps == [] then 0 else Vars(ps[1..]) + if ps[0].value.Var? then 1 else 0
  }

  // ---------------------------------------------------------------- records

  function UserProps(kvs: seq<(Text, Text)>): (r: seq<Prop>)
    ensures |r| == |kvs|
    ensures forall k :: 0 <= k < |r| ==> r[k] == Prop(USER, Pair(kvs[k].0, kvs[k].1))
  {
    seq(|kvs|, k requires 0 <= k < |kvs| => Prop(USER, Pair(kvs[k].0, kvs[k].1)))
  }

  function SubscriptionProps(ids: seq<nat>): (r: seq<Prop>)
    ensures |r| == |ids|
    ensures forall k :: 0 <= k < |r| ==> r[k] == Prop(SUBSCRIPTION, Var(ids[k]))
  {
    seq(|ids|, k requires 0 <= k < |ids| => Prop(SUBSCRIPTION, Var(ids[k])))
  }

  /** What the writer puts for one property number. */
  function PropsFor(p: Properties, id: Byte): seq<Prop> {
    if id == USER then UserProps(p.user)
    else if id == SUBSCRIPTION then SubscriptionProps(p.subscriptions)
    else if id in p.single then [Prop(id, p.single[id])]
    else []
  }

  function Listed(p: Properties, order: seq<Byte>): seq<Prop> {
    if order == [] then [] else Listed(p, order[..|order| - 1]) + PropsFor(p, order[|order| - 1])
  }

  /** A record as the writer lists it. */
  function AsList(o: Owner, p: Properties): seq<Prop> { Listed(p, Order(o)) }

  /** The reader keeps the last of each single property, and all of the others. */
  function Add(p: Properties, q: Prop): Properties {
    match q.value
    case Pair(k, w) => p.(user := p.user + [(k, w)])
    case Var(n) => p.(subscriptions := p.subscriptions + [n])
    case v => p.(single := p.single[q.id := v])
  }

  function Gather(p: Properties, ps: seq<Prop>): Properties {
    if ps == [] then p else Add(Gather(p, ps[..|ps| - 1]), ps[|ps| - 1])
  }

  lemma {:induction false} GatherJoin(p: Properties, a: seq<Prop>, b: seq<Prop>)
    ensures Gather(p, a + b) == Gather(Gather(p, a), b)
  {
    if b == [] {
      assert a + b == a;
    } else {
      GatherJoin(p, a, b[..|b| - 1]);
      assert (a + b)[..|a + b| - 1] == a + b[..|b| - 1];
    }
  }

  lemma {:induction false} GatherUser(p: Properties, kvs: seq<(Text, Text)>)
    ensures Gather(p, UserProps(kvs)) == p.(user := p.user + kvs)
  {
    if kvs == [] {
      assert p.user + kvs == p.user;
    } else {
      var n := |kvs| - 1;
      GatherUser(p, kvs[..n]);
      assert UserProps(kvs)[..n] == UserProps(kvs[..n]);
      assert p.user + kvs[..n] + [(kvs[n].0, kvs[n].1)] == p.user + kvs;
    }
  }

  lemma {:induction false} GatherSubscriptions(p: Properties, ids: seq<nat>)
    ensures Gather(p, SubscriptionProps(ids)) == p.(subscriptions := p.subscriptions + ids)
  {
    if ids == [] {
      assert p.subscriptions + ids == p.subscriptions;
    } else {
      var n := |ids| - 1;
      GatherSubscriptions(p, ids[..n]);
      assert SubscriptionProps(ids)[..n] == SubscriptionProps(ids[..n]);
      assert p.subscriptions + ids[..n] + [ids[n]] == p.subscriptions + ids;
    }
  }

  /** The record fits its packet: single properties it may carry, of the right shape. */
  predicate Fits(o: Owner, p: Properties) {
    && (forall id :: id in p.single ==>
          id in Order(o) && id != USER && id != SUBSCRIPTION && PropFits(o, Prop(id, p.single[id])))
    && (forall k :: 0 <= k < |p.user| ==> Field(p.user[k].0) && Field(p.user[k].1))
    && (forall k :: 0 <= k < |p.subscriptions| ==> p.subscriptions[k] <= MAX_LENGTH)
    && (p.subscriptions != [] ==> o.OfPublish?)
  }

  /** The part of a record that the first property numbers hold. */
  function Part(p: Properties, order: seq<Byte>): Properties {
    Properties(map id | id in p.single && id in order :: p.single[id],
               if USER in order then p.user else [],
               if SUBSCRIPTION in order then p.subscriptions else [])
  }

  ghost predicate Distinct(order: seq<Byte>) {
    forall i, j :: 0 <= i < j < |order| ==> order[i] != order[j]
  }

  ghost predicate SinglesAreSingle(p: Properties) {
    forall id :: id in p.single ==> id != USER && id != SUBSCRIPTION && !p.single[id].Pair? && !p.single[id].Var?
  }

  lemma SingleNext(p: Properties, order: seq<Byte>, id: Byte)
    requires SinglesAreSingle(p) && id !in order && id != USER && id != SUBSCRIPTION
    ensures Gather(Part(p, order), PropsFor(p, id)) == Part(p, order + [id])
  {
    var part := Part(p, order);
    if id in p.single {
      assert [Prop(id, p.single[id])][..0] == [];
      assert part.single[id := p.single[id]] == Part(p, order + [id]).single;
    } else {
      assert part.single == Part(p, order + [id]).single;
    }
  }

  lemma PartNext(p: Properties, order: seq<Byte>, id: Byte)
    requires SinglesAreSingle(p) && id !in order
    ensures Gather(Part(p, order), PropsFor(p, id)) == Part(p, order + [id])
  {
    hide Gather;
    var part := Part(p, order);
    if id == USER {
      GatherUser(part, p.user);
      assert part.single == Part(p, order + [id]).single;
    } else if id == SUBSCRIPTION {
      GatherSubscriptions(part, p.subscriptions);
      assert part.single == Part(p, order + [id]).single;
    } else {
      SingleNext(p, order, id);
    }
  }

  lemma {:induction false} ListedGathers(p: Properties, order: seq<Byte>)
    requires SinglesAreSingle(p) && Distinct(order)
    ensures Gather(NO_PROPERTIES, Listed(p, order)) == Part(p, order)
  {
    if order == [] {
      assert Part(p, order).single == map[];
    } else {
      var less, id := order[..|order| - 1], order[|order| - 1];
      assert id !in less;
      ListedGathers(p, less);
      GatherJoin(NO_PROPERTIES, Listed(p, less), PropsFor(p, id));
      PartNext(p, less, id);
      assert less + [id] == order;
    }
  }

  lemma SinglesFit(o: Owner, p: Properties)
    requires Fits(o, p)
    ensures SinglesAreSingle(p)
  {
    forall id | id in p.single ensures !p.single[id].Pair? && !p.single[id].Var? {
      assert PropFits(o, Prop(id, p.single[id]));
    }
  }

  lemma OrderIsDistinct(o: Owner)
    ensures Distinct(Order(o)) && USER in Order(o) && (SUBSCRIPTION in Order(o) <==> o.OfPublish?)
  {
    match o
    case OfPublish => assert Order(o)[5] == USER && Order(o)[6] == SUBSCRIPTION;
    case OfConnect => assert Order(o)[6] == USER;
    case OfWill => assert Order(o)[6] == USER;
  }

  /** A record listed by the writer is gathered again by the reader. */
  lemma RecordRoundTrip(o: Owner, p: Properties)
    requires Fits(o, p)
    ensures Gather(NO_PROPERTIES, AsList(o, p)) == p
  {
    hide Order, PropFits;
    SinglesFit(o, p);
    OrderIsDistinct(o);
    ListedGathers(p, Order(o));
    assert Part(p, Order(o)).single == p.single;
  }

  lemma PropsForFit(o: Owner, p: Properties, id: Byte)
    requires Fits(o, p) && (id == SUBSCRIPTION ==> o.OfPublish?)
    ensures PropsFit(o, PropsFor(p, id))
  {
    hide Field, Order;
    var ps := PropsFor(p, id);
    forall k | 0 <= k < |ps| ensures PropFits(o, ps[k]) {
      if id == USER {
        assert ps[k] == Prop(USER, Pair(p.user[k].0, p.user[k].1));
      } else if id == SUBSCRIPTION {
        assert ps[k] == Prop(SUBSCRIPTION, Var(p.subscriptions[k]));
      }
    }
  }

  lemma {:induction false} ListedFit(o: Owner, p: Properties, order: seq<Byte>)
    requires Fits(o, p) && (SUBSCRIPTION in order ==> o.OfPublish?)
    ensures PropsFit(o, Listed(p, order))
  {
    hide Fits, PropFits;
    if order != [] {
      var less, id := order[..|order| - 1], order[|order| - 1];
      ListedFit(o, p, less);
      PropsForFit(o, p, id);
    }
  }

  lemma AsListFits(o: Owner, p: Properties)
    requires Fits(o, p)
    ensures PropsFit(o, AsList(o, p))
  {
    OrderIsDistinct(o);
    ListedFit(o, p, Order(o));
  }
}
