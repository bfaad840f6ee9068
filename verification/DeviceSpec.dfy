/** What a device may expect of its packets: which of its publishes the broker accepts, how each packet is
    answered, and which packet ends its connection. */
module DeviceSpec {
  import opened Basics
  import opened RouterTypes

  /** What has to be remembered of a device from packet to packet: the QoS 2 publishes it has not released
      yet, the packet ids it has not acknowledged and those it has not completed, oldest first, and the
      filters it is subscribed to, and those it is known to have asked for on this connection. */
  datatype Desk = Desk(
    recorded: seq<Publish>, window: seq<nat>, releases: seq<PacketId>, subs: set<Text>, known: set<Text>)

  const DOLLAR_SIGN: Byte := 36
  const DOLLAR_SHARE: Text := [36, 115, 104, 97, 114, 101]  // "$share"

  function Rest<T>(s: seq<T>): seq<T> { if s == [] then [] else s[1..] }

  // ---------------------------------------------------------------- one packet

  /** A filter is refused if the access handler says so, and if it is about the broker's own topics. */
  predicate Refused(f: SubscribeFilter) {
    !f.allowed || (f.path != [] && f.path[0] == DOLLAR_SIGN && !(DOLLAR_SHARE <= f.path))
  }

  /** The filters in front of the first that is refused. */
  function Granted(fs: seq<SubscribeFilter>): (r: seq<SubscribeFilter>)
    ensures r <= fs && (forall k :: 0 <= k < |r| ==> !Refused(r[k]))
    ensures |r| < |fs| ==> Refused(fs[|r|])
  {
    if fs == [] || Refused(fs[0]) then [] else [fs[0]] + Granted(fs[1..])
  }

  function Codes(fs: seq<SubscribeFilter>): seq<QoS> {
    seq(|fs|, k requires 0 <= k < |fs| => fs[k].qos)
  }

  function Paths(fs: seq<SubscribeFilter>): set<Text> { set k | 0 <= k < |fs| :: fs[k].path }

  /** One acknowledgement for each filter that is known, the first time it is named. */
  function UnsubAcks(known: set<Text>, pkid: PacketId, filters: seq<Text>): seq<Ack> {
    if filters == [] then []
    else
      (if filters[0] in known then [UnsubAck(pkid)] else []) + UnsubAcks(known - {filters[0]}, pkid, filters[1..])
  }

  function Named(filters: seq<Text>): set<Text> { set f | f in filters }

  predicate IsNext(queue: seq<nat>, pkid: PacketId) { queue != [] && queue[0] == pkid }

  /** The packet ends the connection and the batch: a publish that is not allowed, an acknowledgement or a
      completion that is not for the oldest, a release without anything to release, and DISCONNECT. */
  predicate Ends(d: Desk, p: Packet) {
    match p
    case PublishPacket(q, allowed) => !q.qos.ExactlyOnce? && !allowed
    case PubAckPacket(pkid) => !IsNext(d.window, pkid)
    case PubRecPacket(pkid) => !IsNext(d.window, pkid)
    case PubRelPacket(_, allowed) => d.recorded == [] || !allowed
    case PubCompPacket(pkid) => !IsNext(d.releases, pkid)
    case DisconnectPacket => true
    case _ => false
  }

  /** A refused subscription ends the connection too, but not the batch. */
  predicate Disconnects(d: Desk, p: Packet) {
    Ends(d, p) || (p.SubscribePacket? && |Granted(p.filters)| < |p.filters|)
  }

  /** What the broker accepts: a QoS 0 or QoS 1 publish as it was sent, a QoS 2 publish, as it was sent, when
      it is released. */
  function Accepts(d: Desk, p: Packet): seq<Publish> {
    match p
    case PublishPacket(q, allowed) => if allowed && !q.qos.ExactlyOnce? then [q] else []
    case PubRelPacket(_, allowed) => if allowed && d.recorded != [] then [d.recorded[0]] else []
    case _ => []
  }

  /** How a packet is answered that does not end the batch. */
  function Answer(known: set<Text>, p: Packet): seq<Ack> {
    match p
    case PublishPacket(q, _) =>
      (match q.qos
       case AtMostOnce => []
       case AtLeastOnce => [PubAck(q.pkid)]
       case ExactlyOnce => [PubRec(q.pkid)])
    case SubscribePacket(pkid, filters) => [SubAck(pkid, Codes(Granted(filters)))]
    case UnsubscribePacket(pkid, filters) => UnsubAcks(known, pkid, filters)
    case PubRecPacket(pkid) => [PubRel(pkid)]
    case PubRelPacket(pkid, _) => [PubComp(pkid)]
    case PingReqPacket => [PingResp]
    case _ => []
  }

  /** An acknowledgement that is not for the oldest is not answered; everything else is. */
  function Says(d: Desk, p: Packet): seq<Ack> {
    if p.PubRecPacket? && Ends(d, p) then [] else Answer(d.known, p)
  }

  function KnownAfter(known: set<Text>, p: Packet): set<Text> {
    match p
    case SubscribePacket(_, filters) => known + Paths(Granted(filters))
    case UnsubscribePacket(_, filters) => known - Named(filters)
    case _ => known
  }

  /** Only what is known can be unsubscribed. */
  function SubsAfter(subs: set<Text>, known: set<Text>, p: Packet): set<Text> {
    match p
    case SubscribePacket(_, filters) => subs + Paths(Granted(filters))
    case UnsubscribePacket(_, filters) => subs - Named(filters) * known
    case _ => subs
  }

  function RecordedAfter(recorded: seq<Publish>, p: Packet): seq<Publish> {
    match p
    case PublishPacket(q, _) => if q.qos.ExactlyOnce? then recorded + [q] else recorded
    case PubRelPacket(_, _) => Rest(recorded)
    case _ => recorded
  }

  function After(d: Desk, p: Packet): Desk {
    Desk(RecordedAfter(d.recorded, p),
         if p.PubAckPacket? || p.PubRecPacket? then Rest(d.window) else d.window,
         if p.PubRecPacket? && IsNext(d.window, p.pkid) then d.releases + [p.pkid]
         else if p.PubCompPacket? then Rest(d.releases) else d.releases,
         SubsAfter(d.subs, d.known, p), KnownAfter(d.known, p))
  }

  // ---------------------------------------------------------------- a batch of packets

  /** The packets that are handled: up to the first that ends the batch. */
  function Taken(d: Desk, ps: seq<Packet>): (r: seq<Packet>)
    ensures r <= ps
    decreases |ps|
  {
    if ps == [] then [] else [ps[0]] + if Ends(d, ps[0]) then [] else Taken(After(d, ps[0]), ps[1..])
  }

  function AcceptsAll(d: Desk, ps: seq<Packet>): seq<Publish>
    decreases |ps|
  {
    if ps == [] then []
    else Accepts(d, ps[0]) + if Ends(d, ps[0]) then [] else AcceptsAll(After(d, ps[0]), ps[1..])
  }

  function SaysAll(d: Desk, ps: seq<Packet>): seq<Ack>
    decreases |ps|
  {
    if ps == [] then []
    else Says(d, ps[0]) + if Ends(d, ps[0]) then [] else SaysAll(After(d, ps[0]), ps[1..])
  }

  function AfterAll(d: Desk, ps: seq<Packet>): Desk
    decreases |ps|
  {
    if ps == [] then d
    else if Ends(d, ps[0]) then After(d, ps[0]) else AfterAll(After(d, ps[0]), ps[1..])
  }

  predicate EndsAny(d: Desk, ps: seq<Packet>)
    decreases |ps|
  {
    ps != [] && (Ends(d, ps[0]) || EndsAny(After(d, ps[0]), ps[1..]))
  }

  predicate DisconnectsAny(d: Desk, ps: seq<Packet>)
    decreases |ps|
  {
    ps != [] && (Disconnects(d, ps[0]) || (!Ends(d, ps[0]) && DisconnectsAny(After(d, ps[0]), ps[1..])))
  }

  // ---------------------------------------------------------------- the life of a connection

  function Answers(known: set<Text>, ps: seq<Packet>): seq<Ack>
    decreases |ps|
  {
    if ps == [] then [] else Answer(known, ps[0]) + Answers(KnownAfter(known, ps[0]), ps[1..])
  }

  function KnownAll(known: set<Text>, ps: seq<Packet>): set<Text>
    decreases |ps|
  {
    if ps == [] then known else KnownAll(KnownAfter(known, ps[0]), ps[1..])
  }

  function SubsAll(subs: set<Text>, known: set<Text>, ps: seq<Packet>): set<Text>
    decreases |ps|
  {
    if ps == [] then subs else SubsAll(SubsAfter(subs, known, ps[0]), KnownAfter(known, ps[0]), ps[1..])
  }

  /** The QoS 2 publishes that have not been released, in the order in which they came. */
  function Unreleased(recorded: seq<Publish>, ps: seq<Packet>): seq<Publish>
    decreases |ps|
  {
    if ps == [] then recorded else Unreleased(RecordedAfter(recorded, ps[0]), ps[1..])
  }

  /** The packet ids for which a PUBREC has come. */
  function Received(ps: seq<Packet>): seq<PacketId> {
    if ps == [] then [] else (if ps[0].PubRecPacket? then [ps[0].pkid] else []) + Received(ps[1..])
  }

  /** The packet ids for which a PUBCOMP has come. */
  function Completed(ps: seq<Packet>): seq<PacketId> {
    if ps == [] then [] else (if ps[0].PubCompPacket? then [ps[0].pkid] else []) + Completed(ps[1..])
  }

  lemma {:induction false} AnswersJoin(known: set<Text>, a: seq<Packet>, b: seq<Packet>)
    ensures Answers(known, a + b) == Answers(known, a) + Answers(KnownAll(known, a), b)
    ensures KnownAll(known, a + b) == KnownAll(KnownAll(known, a), b)
    decreases |a|
  {
    hide Answer, KnownAfter;
    if a == [] {
      assert a + b == b;
    } else {
      assert (a + b)[1..] == a[1..] + b;
      AnswersJoin(KnownAfter(known, a[0]), a[1..], b);
    }
  }

  lemma {:induction false} SubsJoin(subs: set<Text>, known: set<Text>, a: seq<Packet>, b: seq<Packet>)
    ensures SubsAll(subs, known, a + b) == SubsAll(SubsAll(subs, known, a), KnownAll(known, a), b)
    decreases |a|
  {
    hide SubsAfter, KnownAfter;
    if a == [] {
      assert a + b == b;
    } else {
      assert (a + b)[1..] == a[1..] + b;
      SubsJoin(SubsAfter(subs, known, a[0]), KnownAfter(known, a[0]), a[1..], b);
    }
  }

  lemma {:induction false} UnreleasedJoin(recorded: seq<Publish>, a: seq<Packet>, b: seq<Packet>)
    ensures Unreleased(recorded, a + b) == Unreleased(Unreleased(recorded, a), b)
    decreases |a|
  {
    hide RecordedAfter;
    if a == [] {
      assert a + b == b;
    } else {
      assert (a + b)[1..] == a[1..] + b;
      UnreleasedJoin(RecordedAfter(recorded, a[0]), a[1..], b);
    }
  }

  lemma {:induction false} ReceivedJoin(a: seq<Packet>, b: seq<Packet>)
    ensures Received(a + b) == Received(a) + Received(b)
  {
    if a == [] {
      assert a + b == b;
    } else {
      assert (a + b)[1..] == a[1..] + b;
      ReceivedJoin(a[1..], b);
    }
  }

  lemma {:induction false} CompletedJoin(a: seq<Packet>, b: seq<Packet>)
    ensures Completed(a + b) == Completed(a) + Completed(b)
  {
    if a == [] {
      assert a + b == b;
    } else {
      assert (a + b)[1..] == a[1..] + b;
      CompletedJoin(a[1..], b);
    }
  }

  /** As long as no packet ends the connection, each is answered, whatever is unacknowledged; and what was to
      be completed at first and what a PUBREC has come for is what has been completed, in order, and what is
      still to be. */
  lemma {:induction false} WithoutEnd(d: Desk, ps: seq<Packet>)
    requires !EndsAny(d, ps)
    ensures Taken(d, ps) == ps && SaysAll(d, ps) == Answers(d.known, ps)
    ensures AfterAll(d, ps).known == KnownAll(d.known, ps) && AfterAll(d, ps).subs == SubsAll(d.subs, d.known, ps)
    ensures AfterAll(d, ps).recorded == Unreleased(d.recorded, ps)
    ensures d.releases + Received(ps) == Completed(ps) + AfterAll(d, ps).releases
    decreases |ps|
  {
    hide Answer, KnownAfter, RecordedAfter, SubsAfter;
    if ps == [] {
      assert d.releases + [] == d.releases && [] + d.releases == d.releases;
    } else {
      var next := After(d, ps[0]);
      WithoutEnd(next, ps[1..]);
      assert ps == [ps[0]] + ps[1..];
      OneCompleted(d, ps[0], Received(ps[1..]), Completed(ps[1..]), AfterAll(d, ps).releases);
    }
  }

  lemma OneCompleted(d: Desk, p: Packet, received: seq<PacketId>, completed: seq<PacketId>, left: seq<PacketId>)
    requires !Ends(d, p) && After(d, p).releases + received == completed + left
    ensures d.releases + ((if p.PubRecPacket? then [p.pkid] else []) + received) ==
            (if p.PubCompPacket? then [p.pkid] else []) + completed + left
  {
    hide KnownAfter, RecordedAfter, SubsAfter;
    if p.PubCompPacket? {
      assert d.releases == [p.pkid] + After(d, p).releases;
      calc {
        d.releases + ([] + received);
        [p.pkid] + (After(d, p).releases + received);
        [p.pkid] + completed + left;
      }
    } else if p.PubRecPacket? {
      assert d.releases + ([p.pkid] + received) == d.releases + [p.pkid] + received;
      assert [] + completed == completed;
    } else {
      assert [] + received == received && [] + completed == completed;
    }
  }
}
