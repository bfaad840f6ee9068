/** The router keeps to what a device may expect, packet by packet and batch by batch. */
module RouterDevice {
  import opened Basics
  import opened RouterTypes
  import opened StoreSpec
  import opened WindowSpec
  import opened RouterSpec
  import opened RouterPackets
  import opened RouterSubscribe
  import opened DeviceSpec

  function Pkids(inflight: seq<Inflight>): (r: seq<nat>)
    ensures |r| == |inflight|
    ensures forall k :: 0 <= k < |r| ==> r[k] == inflight[k].pkid
  {
    seq(|inflight|, k requires 0 <= k < |inflight| => inflight[k].pkid)
  }

  /** The subscriptions of a connection that the subscription map knows of. */
  function Known(subs: set<Text>, subMap: map<Text, set<ConnectionId>>, id: ConnectionId): set<Text> {
    set f | f in subs && f in subMap && id in subMap[f]
  }

  /** The subscription map knows of no subscription that the connection has not. */
  ghost predicate MapOk(subs: set<Text>, subMap: map<Text, set<ConnectionId>>, id: ConnectionId) {
    forall f :: f in subMap && id in subMap[f] ==> f in subs
  }

  function DeskOf(st: State, id: ConnectionId): Desk
    requires id in st.sess
  {
    var s := st.sess[id];
    Desk(s.recorded, Pkids(s.out.inflight), s.out.unackedPubrels, s.subs, Known(s.subs, st.subMap, id))
  }

  /** Nothing is known of the subscriptions of other connections that was not known. */
  ghost predicate OthersKnown(subMap: map<Text, set<ConnectionId>>, subMap': map<Text, set<ConnectionId>>,
                              id: ConnectionId) {
    forall f, i :: i != id ==> (f in subMap && i in subMap[f] <==> f in subMap' && i in subMap'[f])
  }

  predicate IsCaughtup(status: Status) { status == Paused(Caughtup) }

  /** A connection at rest may have been made ready, no other. */
  predicate Roused(a: Status, b: Status) {
    b == a || (IsCaughtup(a) && b.Ready?)
  }

  /** Only its requests are others, and it may have been roused. */
  ghost predicate Undisturbed(s: Session, s': Session) {
    s' == s.(reqs := s'.reqs, status := s'.status) && Roused(s.status, s'.status)
  }

  /** The packet may make room in the window. */
  predicate Acknowledges(p: Packet) { p.PubAckPacket? || p.PubRecPacket? || p.PubRelPacket? }

  /** One that waits for room in its window may have been made ready too, if there was such a packet. */
  ghost predicate RousedBy(a: Status, b: Status, ps: seq<Packet>) {
    Roused(a, b) || (a == Paused(InflightFull) && b.Ready? && exists k :: 0 <= k < |ps| && Acknowledges(ps[k]))
  }

  /** The connection is served as its device may expect; the others are left alone. */
  ghost predicate Served(st: State, st': State, id: ConnectionId, accepted: seq<Publish>, said: seq<Ack>, after: Desk)
  {
    && id in st.sess && id in st'.sess
    && st'.store.accepted == st.store.accepted + accepted
    && st'.sess[id].committed == st.sess[id].committed + said
    && DeskOf(st', id) == after
    && st'.sess[id].client == st.sess[id].client && st'.sess[id].clean == st.sess[id].clean
    && st'.sess[id].wire == st.sess[id].wire
    && st'.sess.Keys == st.sess.Keys
    && (forall i :: i in st.sess && i != id ==> Undisturbed(st.sess[i], st'.sess[i]))
    && OthersKnown(st.subMap, st'.subMap, id)
    && (MapOk(st.sess[id].subs, st.subMap, id) ==> MapOk(st'.sess[id].subs, st'.subMap, id))
    && st'.grave == st.grave && st'.byClient == st.byClient
  }

  /** What the session is to be after a packet. */
  ghost predicate BatchServed(b: Batch, b': Batch, id: ConnectionId, p: Packet) {
    && id in b.st.sess
    && var d := DeskOf(b.st, id);
       && Served(b.st, b'.st, id, Accepts(d, p), Says(d, p), After(d, p))
       && b'.stopped == (b.stopped || Ends(d, p))
       && b'.disconnect == (b.disconnect || Disconnects(d, p))
       && b'.st.wills == (if p.DisconnectPacket? then b.st.wills - {b.st.sess[id].client} else b.st.wills)
       && (Says(d, p) != [] ==> b'.forceAck || b'.disconnect || !IsCaughtup(b'.st.sess[id].status))
       && RousedBy(b.st.sess[id].status, b'.st.sess[id].status, [p])
       && (b.forceAck ==> b'.forceAck)
  }

  lemma RousedRests(a: Status, b: Status, ps: seq<Packet>)
    requires RousedBy(a, b, ps)
    ensures IsCaughtup(b) ==> IsCaughtup(a)
  {
  }

  lemma AckRouses(a: Status, p: Packet)
    requires Acknowledges(p)
    ensures RousedBy(a, TryReady(a, IncomingAck), [p])
  {
    assert [p][0] == p;
  }

  lemma SameKnown(subMap: map<Text, set<ConnectionId>>, id: ConnectionId)
    ensures OthersKnown(subMap, subMap, id)
  {
  }

  lemma ServedOn(a: State, b: State, c: State, id: ConnectionId, p: seq<Publish>, q: seq<Publish>, x: seq<Ack>,
                 y: seq<Ack>, d: Desk, e: Desk, accepted: seq<Publish>, said: seq<Ack>)
    requires Served(a, b, id, p, x, d) && Served(b, c, id, q, y, e) && accepted == p + q && said == x + y
    ensures Served(a, c, id, accepted, said, e)
  {
    hide DeskOf, OthersKnown, MapOk, Undisturbed;
    OthersKnownOn(a.subMap, b.subMap, c.subMap, id);
    forall i | i in a.sess && i != id ensures Undisturbed(a.sess[i], c.sess[i]) {
      UndisturbedOn(a.sess[i], b.sess[i], c.sess[i]);
    }
    assert a.store.accepted + p + q == a.store.accepted + (p + q);
    assert a.sess[id].committed + x + y == a.sess[id].committed + (x + y);
  }

  lemma UndisturbedOn(a: Session, b: Session, c: Session)
    requires Undisturbed(a, b) && Undisturbed(b, c)
    ensures Undisturbed(a, c)
  {
  }

  lemma OthersKnownOn(a: map<Text, set<ConnectionId>>, b: map<Text, set<ConnectionId>>, c: map<Text, set<ConnectionId>>,
                      id: ConnectionId)
    requires OthersKnown(a, b, id) && OthersKnown(b, c, id)
    ensures OthersKnown(a, c, id)
  {
    forall f, i | i != id ensures f in a && i in a[f] <==> f in c && i in c[f] {
      assert f in a && i in a[f] <==> f in b && i in b[f];
    }
  }

  /** Of what a device may expect of the router, only its own session has changed. */
  lemma OneServed(st: State, st': State, id: ConnectionId, s: Session, said: seq<Ack>)
    requires id in st.sess && s.committed == st.sess[id].committed + said
    requires s.client == st.sess[id].client && s.clean == st.sess[id].clean && s.wire == st.sess[id].wire
    requires st'.sess == st.sess[id := s] && st'.store == st.store && st'.subMap == st.subMap
             && s.subs == st.sess[id].subs
    requires st'.grave == st.grave && st'.byClient == st.byClient
    ensures Served(st, st', id, [], said,
                   Desk(s.recorded, Pkids(s.out.inflight), s.out.unackedPubrels, s.subs, Known(s.subs, st.subMap, id)))
  {
    hide InRange, Known, Pkids, MapOk;
    SameKnown(st.subMap, id);
    assert st.store.accepted + [] == st.store.accepted;
  }

  lemma WithServed(st: State, id: ConnectionId, s: Session, said: seq<Ack>)
    requires id in st.sess && s.committed == st.sess[id].committed + said && s.subs == st.sess[id].subs
    requires s.client == st.sess[id].client && s.clean == st.sess[id].clean && s.wire == st.sess[id].wire
    ensures Served(st, With(st, id, s), id, [], said,
                   Desk(s.recorded, Pkids(s.out.inflight), s.out.unackedPubrels, s.subs, Known(s.subs, st.subMap, id)))
    ensures With(st, id, s).wills == st.wills && With(st, id, s).panicked == st.panicked
    ensures id in With(st, id, s).sess && With(st, id, s).sess[id] == s
  {
    hide InRange, Known, Pkids, Served;
    OneServed(st, With(st, id, s), id, s, said);
  }

  lemma RescheduleIs(st: State, id: ConnectionId, reason: ScheduleReason)
    requires id in st.sess
    ensures var s := st.sess[id];
            var st' := Reschedule(st, id, reason);
            && st'.sess == st.sess[id := s.(status := TryReady(s.status, reason))]
            && st' == st.(sess := st'.sess, ready := st'.ready)
  {
    hide InRange;
  }

  lemma RescheduleServed(st: State, id: ConnectionId, reason: ScheduleReason)
    requires id in st.sess
    ensures Served(st, Reschedule(st, id, reason), id, [], [], DeskOf(st, id))
    ensures Reschedule(st, id, reason).wills == st.wills && Reschedule(st, id, reason).panicked == st.panicked
    ensures id in Reschedule(st, id, reason).sess
    ensures Reschedule(st, id, reason).sess[id].status == TryReady(st.sess[id].status, reason)
  {
    hide InRange, Known, TryReady, Reschedule, Served, Pkids;
    var s := st.sess[id];
    RescheduleIs(st, id, reason);
    assert s.committed + [] == s.committed;
    OneServed(st, Reschedule(st, id, reason), id, s.(status := TryReady(s.status, reason)), []);
  }

  lemma AppendServed(st: State, id: ConnectionId, p: Publish)
    requires id in st.sess && !AppendToCommitlog(st, p).panicked
    ensures Served(st, AppendToCommitlog(st, p), id, [p], [], DeskOf(st, id))
    ensures AppendToCommitlog(st, p).sess == st.sess && AppendToCommitlog(st, p).wills == st.wills
  {
    hide InRange, Known, AppendMany, UpdateRetained, Lookup, LookupFails;
    SameKnown(st.subMap, id);
    assert st.sess[id].committed + [] == st.sess[id].committed;
  }

  // ---------------------------------------------------------------- packet by packet

  lemma PublishedServed(b: Batch, id: ConnectionId, p: Publish, allowed: bool)
    requires id in b.st.sess && !Published(b, p, allowed).st.panicked
    ensures var b' := Published(b, p, allowed);
            && Served(b.st, b'.st, id, if allowed then [p] else [], [], DeskOf(b.st, id))
            && b'.st.sess == b.st.sess && b'.st.wills == b.st.wills
            && b'.stopped == (b.stopped || !allowed) && b'.disconnect == (b.disconnect || !allowed)
            && b'.forceAck == b.forceAck
  {
    hide AppendToCommitlog, DeskOf;
    if allowed {
      AppendServed(b.st, id, p);
    } else {
      SameKnown(b.st.subMap, id);
      assert b.st.store.accepted + [] == b.st.store.accepted;
      assert b.st.sess[id].committed + [] == b.st.sess[id].committed;
    }
  }

  /** The session is committed to an acknowledgement, and a publish may be recorded or released. */
  lemma CommittedServed(st: State, id: ConnectionId, ack: Ack, recorded: seq<Publish>)
    requires id in st.sess
    ensures var s := st.sess[id];
            var st' := With(st, id, s.(committed := s.committed + [ack], recorded := recorded));
            && Served(st, st', id, [], [ack], DeskOf(st, id).(recorded := recorded))
            && st'.wills == st.wills && st'.panicked == st.panicked
            && id in st'.sess && st'.sess[id].status == s.status
  {
    hide InRange, Known;
    var s := st.sess[id];
    WithServed(st, id, s.(committed := s.committed + [ack], recorded := recorded), [ack]);
  }

  lemma PublishServed(b: Batch, id: ConnectionId, p: Publish, allowed: bool)
    requires id in b.st.sess && !OnPacket(b, id, PublishPacket(p, allowed)).st.panicked
    ensures BatchServed(b, OnPacket(b, id, PublishPacket(p, allowed)), id, PublishPacket(p, allowed))
  {
    hide InRange, Known, Published, Served, With;
    var d, s := DeskOf(b.st, id), b.st.sess[id];
    match p.qos
    case AtMostOnce =>
      PublishedServed(b, id, p, allowed);
    case AtLeastOnce =>
      var b1 := b.(st := Commit(b.st, id, PubAck(p.pkid)), forceAck := true);
      CommittedServed(b.st, id, PubAck(p.pkid), s.recorded);
      ServedHas(b.st, b1.st, id, [], [PubAck(p.pkid)], d);
      PublishedServed(b1, id, p, allowed);
      var got := if allowed then [p] else [];
      ServedOn(b.st, b1.st, Published(b1, p, allowed).st, id, [], got, [PubAck(p.pkid)], [], d, d,
               got, [PubAck(p.pkid)]);
    case ExactlyOnce =>
      CommittedServed(b.st, id, PubRec(p.pkid), s.recorded + [p]);
  }

  lemma ServedHas(st: State, st': State, id: ConnectionId, accepted: seq<Publish>, said: seq<Ack>, after: Desk)
    requires Served(st, st', id, accepted, said, after)
    ensures id in st.sess && id in st'.sess && DeskOf(st', id) == after
    ensures st'.sess[id].client == st.sess[id].client
  {
  }

  lemma PingServed(b: Batch, id: ConnectionId)
    requires id in b.st.sess
    ensures BatchServed(b, OnPacket(b, id, PingReqPacket), id, PingReqPacket)
  {
    hide InRange, Known, Served, With;
    CommittedServed(b.st, id, PingResp, b.st.sess[id].recorded);
  }

  lemma DisconnectServed(b: Batch, id: ConnectionId)
    requires id in b.st.sess
    ensures BatchServed(b, OnPacket(b, id, DisconnectPacket), id, DisconnectPacket)
  {
    hide InRange, Known;
    SameKnown(b.st.subMap, id);
    assert b.st.store.accepted + [] == b.st.store.accepted;
    assert b.st.sess[id].committed + [] == b.st.sess[id].committed;
  }

  lemma OtherServed(b: Batch, id: ConnectionId)
    requires id in b.st.sess
    ensures BatchServed(b, OnPacket(b, id, OtherPacket), id, OtherPacket)
  {
    hide InRange, Known;
    SameKnown(b.st.subMap, id);
    assert b.st.store.accepted + [] == b.st.store.accepted;
    assert b.st.sess[id].committed + [] == b.st.sess[id].committed;
  }

  lemma PkidsRest(inflight: seq<Inflight>)
    requires inflight != []
    ensures Pkids(inflight[1..]) == Pkids(inflight)[1..]
  {
  }

  function AckPacket(pkid: PacketId, rec: bool): Packet {
    if rec then PubRecPacket(pkid) else PubAckPacket(pkid)
  }

  /** The oldest entry leaves the window, whatever the packet id. */
  lemma TakenServed(st: State, id: ConnectionId, pkid: PacketId, rec: bool)
    requires id in st.sess
    ensures var s, d, p := st.sess[id], DeskOf(st, id), AckPacket(pkid, rec);
            var st' := With(st, id, AckedSession(s, pkid, rec));
            && Served(st, st', id, [], Says(d, p), After(d, p))
            && st'.wills == st.wills && st'.panicked == st.panicked
            && id in st'.sess && st'.sess[id].status == s.status
            && RegisterAck(s.out, pkid).1 == !Ends(d, p)
  {
    hide InRange, Known, Entered, Served, With;
    var s := st.sess[id];
    if s.out.inflight != [] {
      PkidsRest(s.out.inflight);
    }
    assert s.committed + [] == s.committed;
    WithServed(st, id, AckedSession(s, pkid, rec), if RegisterAck(s.out, pkid).1 && rec then [PubRel(pkid)] else []);
  }

  lemma AcknowledgedIs(b: Batch, id: ConnectionId, pkid: PacketId, rec: bool)
    requires id in b.st.sess
    ensures var st1 := With(b.st, id, AckedSession(b.st.sess[id], pkid, rec));
            Acknowledged(b, id, pkid, rec) ==
            if RegisterAck(b.st.sess[id].out, pkid).1 then b.(st := Reschedule(st1, id, IncomingAck))
            else Stop(b.(st := st1))
  {
    hide InRange, RegisterAck, RegisterPubrec, Reschedule, With;
  }

  lemma AckedServed(b: Batch, id: ConnectionId, pkid: PacketId, rec: bool)
    requires id in b.st.sess
    ensures var p := AckPacket(pkid, rec);
            var d, b' := DeskOf(b.st, id), Acknowledged(b, id, pkid, rec);
            && Served(b.st, b'.st, id, [], Says(d, p), After(d, p))
            && b'.stopped == (b.stopped || Ends(d, p)) && b'.disconnect == (b.disconnect || Ends(d, p))
            && b'.st.wills == b.st.wills && b'.forceAck == b.forceAck && b'.st.panicked == b.st.panicked
            && id in b'.st.sess
            && (if Ends(d, p) then b'.st.sess[id].status == b.st.sess[id].status
                else b'.st.sess[id].status == TryReady(b.st.sess[id].status, IncomingAck))
  {
    hide InRange, Served, RegisterAck, With, Reschedule, Says, After, Ends, DeskOf, TryReady, Acknowledged,
         AckedSession, AckPacket;
    var d, p := DeskOf(b.st, id), AckPacket(pkid, rec);
    var st1 := With(b.st, id, AckedSession(b.st.sess[id], pkid, rec));
    TakenServed(b.st, id, pkid, rec);
    AcknowledgedIs(b, id, pkid, rec);
    if !Ends(d, p) {
      ServedHas(b.st, st1, id, [], Says(d, p), After(d, p));
      RescheduleServed(st1, id, IncomingAck);
      ServedOn(b.st, st1, Reschedule(st1, id, IncomingAck), id, [], [], Says(d, p), [], After(d, p), After(d, p),
               [], Says(d, p));
    }
  }

  lemma AckServed(b: Batch, id: ConnectionId, pkid: PacketId, rec: bool)
    requires id in b.st.sess
    ensures BatchServed(b, OnPacket(b, id, AckPacket(pkid, rec)), id, AckPacket(pkid, rec))
  {
    hide Served, Acknowledged, After, DeskOf, RousedBy;
    AckedServed(b, id, pkid, rec);
    AckRouses(b.st.sess[id].status, AckPacket(pkid, rec));
    NothingRouses(b.st.sess[id].status, [AckPacket(pkid, rec)]);
  }

  lemma PubCompServed(b: Batch, id: ConnectionId, pkid: PacketId)
    requires id in b.st.sess
    ensures BatchServed(b, OnPacket(b, id, PubCompPacket(pkid)), id, PubCompPacket(pkid))
  {
    hide InRange, Known, With, Served, Pkids;
    var s := b.st.sess[id];
    assert s.committed + [] == s.committed;
    WithServed(b.st, id, s.(out := RegisterPubcomp(s.out, pkid).0), []);
  }

  /** The oldest recorded publish is released, and accepted if it is allowed. */
  lemma ReleasedServed(b: Batch, id: ConnectionId, pkid: PacketId, allowed: bool)
    requires id in b.st.sess && b.st.sess[id].recorded != []
    requires !OnPacket(b, id, PubRelPacket(pkid, allowed)).st.panicked
    ensures var recorded, b' := b.st.sess[id].recorded, OnPacket(b, id, PubRelPacket(pkid, allowed));
            && Served(b.st, b'.st, id, if allowed then [recorded[0]] else [], [PubComp(pkid)],
                      DeskOf(b.st, id).(recorded := recorded[1..]))
            && b'.stopped == (b.stopped || !allowed) && b'.disconnect == (b.disconnect || !allowed)
            && b'.st.wills == b.st.wills && b'.forceAck == b.forceAck && id in b'.st.sess
            && b'.st.sess[id].status ==
               (if allowed then TryReady(b.st.sess[id].status, IncomingAck) else b.st.sess[id].status)
  {
    hide InRange, Published, Served, With, Reschedule, TryReady, DeskOf;
    var d, s := DeskOf(b.st, id), b.st.sess[id];
    var p, d1 := s.recorded[0], d.(recorded := s.recorded[1..]);
    CommittedServed(b.st, id, PubComp(pkid), s.recorded[1..]);
    var b1 := b.(st := With(b.st, id, s.(committed := s.committed + [PubComp(pkid)], recorded := s.recorded[1..])));
    ServedHas(b.st, b1.st, id, [], [PubComp(pkid)], d1);
    var b2 := Published(b1, p, allowed);
    assert !b2.st.panicked;
    var got := if allowed then [p] else [];
    PublishedServed(b1, id, p, allowed);
    ServedOn(b.st, b1.st, b2.st, id, [], got, [PubComp(pkid)], [], d1, d1, got, [PubComp(pkid)]);
    if allowed {
      ServedHas(b.st, b2.st, id, got, [PubComp(pkid)], d1);
      RescheduleServed(b2.st, id, IncomingAck);
      ServedOn(b.st, b2.st, Reschedule(b2.st, id, IncomingAck), id, got, [], [PubComp(pkid)], [], d1, d1,
               got, [PubComp(pkid)]);
    }
  }

  lemma PubRelServed(b: Batch, id: ConnectionId, pkid: PacketId, allowed: bool)
    requires id in b.st.sess && !OnPacket(b, id, PubRelPacket(pkid, allowed)).st.panicked
    ensures BatchServed(b, OnPacket(b, id, PubRelPacket(pkid, allowed)), id, PubRelPacket(pkid, allowed))
  {
    hide InRange, Known, Published, Served, With, Reschedule, Pkids;
    var s := b.st.sess[id];
    if s.recorded == [] {
      CommittedServed(b.st, id, PubComp(pkid), []);
      assert s.(committed := s.committed + [PubComp(pkid)], recorded := [])
             == s.(committed := s.committed + [PubComp(pkid)]);
    } else {
      ReleasedServed(b, id, pkid, allowed);
      AckRouses(s.status, PubRelPacket(pkid, allowed));
    }
  }

  // ---------------------------------------------------------------- subscribing and unsubscribing

  /** The subscriptions of the connection may have changed, and what is known of them. */
  lemma SubsServed(st: State, st': State, id: ConnectionId, s: Session, said: seq<Ack>)
    requires id in st.sess && s.committed == st.sess[id].committed + said
    requires s.client == st.sess[id].client && s.clean == st.sess[id].clean && s.wire == st.sess[id].wire
    requires s.out == st.sess[id].out && s.recorded == st.sess[id].recorded
    requires st'.sess == st.sess[id := s] && st'.store.accepted == st.store.accepted
    requires OthersKnown(st.subMap, st'.subMap, id) && st'.grave == st.grave && st'.byClient == st.byClient
    requires MapOk(st.sess[id].subs, st.subMap, id) ==> MapOk(s.subs, st'.subMap, id)
    ensures Served(st, st', id, [], said, DeskOf(st, id).(subs := s.subs, known := Known(s.subs, st'.subMap, id)))
  {
    hide InRange, Known, Pkids, OthersKnown, MapOk;
    assert st.store.accepted + [] == st.store.accepted;
  }

  lemma ForgottenKnown(subs: set<Text>, subMap: map<Text, set<ConnectionId>>, id: ConnectionId, f: Text)
    requires f in subMap
    ensures var subMap' := subMap[f := subMap[f] - {id}];
            && OthersKnown(subMap, subMap', id)
            && Known(subs, subMap', id) == Known(subs, subMap, id) - {f}
            && Known(subs - {f}, subMap', id) == Known(subs, subMap, id) - {f}
            && (MapOk(subs, subMap, id) ==> MapOk(subs, subMap', id) && MapOk(subs - {f}, subMap', id))
  {
  }

  lemma UnknownStays(subs: set<Text>, known: set<Text>, f: Text)
    ensures f !in known ==> known - {f} == known && subs - {f} * known == subs
    ensures f in known ==> subs - {f} * known == subs - {f}
  {
  }

  lemma RemoveWaiterAccepts(store: Store, id: ConnectionId, filter: Text)
    ensures RemoveWaiterOf(store, id, filter).accepted == store.accepted
  {
  }

  lemma UnsubscribeOneServed(st: State, id: ConnectionId, pkid: PacketId, filter: Text)
    requires id in st.sess
    ensures var (st', did) := UnsubscribeOne(st, id, pkid, filter);
            var d := DeskOf(st, id);
            && Served(st, st', id, [], if filter in d.known then [UnsubAck(pkid)] else [],
                      d.(known := d.known - {filter}, subs := d.subs - {filter} * d.known))
            && did == (filter in d.known) && st'.wills == st.wills && st'.panicked == st.panicked
            && id in st'.sess && st'.sess[id].status == st.sess[id].status
  {
    hide InRange, Pkids, RemoveWaiterOf, Served, Without, MapOk;
    var s, d := st.sess[id], DeskOf(st, id);
    assert s.committed + [] == s.committed;
    assert st.sess[id := s] == st.sess;
    UnknownStays(d.subs, d.known, filter);
    if filter !in st.subMap || id !in st.subMap[filter] {
      SameKnown(st.subMap, id);
      SubsServed(st, st, id, s, []);
    } else {
      ForgottenKnown(s.subs, st.subMap, id, filter);
      var st' := UnsubscribeOne(st, id, pkid, filter).0;
      if filter !in s.subs {
        SubsServed(st, st', id, s, []);
      } else {
        RemoveWaiterAccepts(st.store, id, filter);
        SubsServed(st, st', id, st'.sess[id], [UnsubAck(pkid)]);
      }
    }
  }

  lemma {:induction false} UnsubscribeAllServed(st: State, id: ConnectionId, pkid: PacketId, filters: seq<Text>,
                                                acked: bool)
    requires id in st.sess
    ensures var (st', acked') := UnsubscribeAll(st, id, pkid, filters, acked);
            var d := DeskOf(st, id);
            && Served(st, st', id, [], UnsubAcks(d.known, pkid, filters),
                      d.(known := d.known - Named(filters), subs := d.subs - Named(filters) * d.known))
            && acked' == (acked || UnsubAcks(d.known, pkid, filters) != [])
            && st'.wills == st.wills && st'.panicked == st.panicked
            && id in st'.sess && st'.sess[id].status == st.sess[id].status
    decreases |filters|
  {
    hide InRange, DeskOf, UnsubscribeOne, Served;
    var d := DeskOf(st, id);
    if filters == [] {
      assert d.known - Named(filters) == d.known && d.subs - Named(filters) * d.known == d.subs;
      NothingServed(st, id);
    } else {
      var (next, did) := UnsubscribeOne(st, id, pkid, filters[0]);
      var first := if filters[0] in d.known then [UnsubAck(pkid)] else [];
      var d1 := d.(known := d.known - {filters[0]}, subs := d.subs - {filters[0]} * d.known);
      var d2 := d.(known := d.known - Named(filters), subs := d.subs - Named(filters) * d.known);
      UnsubscribeOneServed(st, id, pkid, filters[0]);
      ServedHas(st, next, id, [], first, d1);
      UnsubscribeAllServed(next, id, pkid, filters[1..], acked || did);
      assert filters == [filters[0]] + filters[1..];
      assert d1.known - Named(filters[1..]) == d2.known;
      assert d1.subs - Named(filters[1..]) * d1.known == d2.subs;
      ServedOn(st, next, UnsubscribeAll(next, id, pkid, filters[1..], acked || did).0, id, [], [], first,
               UnsubAcks(d1.known, pkid, filters[1..]), d1, d2, [],
               UnsubAcks(d.known, pkid, filters));
    }
  }

  lemma NothingServed(st: State, id: ConnectionId)
    requires id in st.sess
    ensures Served(st, st, id, [], [], DeskOf(st, id))
  {
    hide InRange, DeskOf;
    SameKnown(st.subMap, id);
    assert st.store.accepted + [] == st.store.accepted;
    assert st.sess[id].committed + [] == st.sess[id].committed;
  }

  lemma UnsubscribeServed(b: Batch, id: ConnectionId, pkid: PacketId, filters: seq<Text>)
    requires id in b.st.sess
    ensures BatchServed(b, OnPacket(b, id, UnsubscribePacket(pkid, filters)), id, UnsubscribePacket(pkid, filters))
  {
    hide InRange, UnsubscribeAll, Served, UnsubAcks, Pkids, Known, Named;
    UnsubscribeAllServed(b.st, id, pkid, filters, false);
  }

  lemma LearnedKnown(subs: set<Text>, subMap: map<Text, set<ConnectionId>>, id: ConnectionId, f: Text)
    ensures var subMap' := subMap[f := (if f in subMap then subMap[f] else {}) + {id}];
            && OthersKnown(subMap, subMap', id)
            && Known(subs + {f}, subMap', id) == Known(subs, subMap, id) + {f}
            && (MapOk(subs, subMap, id) ==> MapOk(subs + {f}, subMap', id))
  {
  }

  lemma NewFilterServed(st: State, id: ConnectionId, filter: Text)
    requires id in st.sess
    ensures var st' := st.(store := NextNativeOffset(st.store, filter).0);
            Served(st, st', id, [], [], DeskOf(st, id))
  {
    hide InRange, Known, Pkids;
    SameKnown(st.subMap, id);
    assert st.store.accepted + [] == st.store.accepted;
    assert st.sess[id].committed + [] == st.sess[id].committed;
  }

  /** The session after a filter has been prepared: a request for it if it is new, at this position. */
  function Prepared(s: Session, f: SubscribeFilter, idx: FilterIdx, cursor: Cursor, since: nat): Session {
    if f.path in s.subs then s else Subscribed(s, f, idx, cursor, since)
  }

  lemma PreparedIs(st: State, id: ConnectionId, f: SubscribeFilter, idx: FilterIdx, cursor: Cursor)
    requires id in st.sess
    ensures var st' := PrepareFilter(st, id, f, idx, cursor);
            && st'.sess == st.sess[id := Prepared(st.sess[id], f, idx, cursor, |st.store.accepted|)]
            && st' == st.(sess := st'.sess, ready := st'.ready, subMap := st'.subMap)
            && st'.subMap == st.subMap[f.path := (if f.path in st.subMap then st.subMap[f.path] else {}) + {id}]
  {
    hide InRange, Subscribed, Reschedule;
    if f.path in st.sess[id].subs {
      assert st.sess[id := st.sess[id]] == st.sess;
    } else {
      PrepareFilterIs(st, id, f, idx, cursor);
    }
  }

  lemma PrepareServed(st: State, id: ConnectionId, f: SubscribeFilter, idx: FilterIdx, cursor: Cursor)
    requires id in st.sess
    ensures var st' := PrepareFilter(st, id, f, idx, cursor);
            var d := DeskOf(st, id);
            && Served(st, st', id, [], [], d.(known := d.known + {f.path}, subs := d.subs + {f.path}))
            && st'.wills == st.wills && st'.store == st.store && st'.panicked == st.panicked
            && id in st'.sess && st'.sess[id] == Prepared(st.sess[id], f, idx, cursor, |st.store.accepted|)
  {
    hide InRange, PrepareFilter, Served, Pkids, TryReady, MapOk;
    var s := st.sess[id];
    PreparedIs(st, id, f, idx, cursor);
    LearnedKnown(s.subs, st.subMap, id, f.path);
    assert s.committed + [] == s.committed;
    var s' := Prepared(s, f, idx, cursor, |st.store.accepted|);
    assert s'.subs == s.subs + {f.path};
    SubsServed(st, PrepareFilter(st, id, f, idx, cursor), id, s', []);
  }

  /** The same subscriptions are refused. */
  lemma RefusedIs(f: SubscribeFilter)
    ensures SubscriptionRefused(f) == Refused(f)
  {
  }

  lemma NoneGranted(filters: set<Text>, codes: seq<QoS>)
    ensures filters + Paths([]) == filters && codes + Codes([]) == codes
  {
  }

  lemma GrantedMore(fs: seq<SubscribeFilter>, codes: seq<QoS>, filters: set<Text>)
    requires fs != [] && !Refused(fs[0])
    ensures var granted, rest := Granted(fs), Granted(fs[1..]);
            && |granted| == 1 + |rest|
            && filters + {fs[0].path} + Paths(rest) == filters + Paths(granted)
            && codes + [fs[0].qos] + Codes(rest) == codes + Codes(granted)
  {
    hide Refused, Paths, Codes;
    PathsMore(fs[0], Granted(fs[1..]));
    CodesMore(fs[0], Granted(fs[1..]));
    assert filters + {fs[0].path} + Paths(Granted(fs[1..])) == filters + ({fs[0].path} + Paths(Granted(fs[1..])));
    assert codes + [fs[0].qos] + Codes(Granted(fs[1..])) == codes + ([fs[0].qos] + Codes(Granted(fs[1..])));
  }

  lemma PathsMore(f: SubscribeFilter, rest: seq<SubscribeFilter>)
    ensures Paths([f] + rest) == {f.path} + Paths(rest)
  {
    var all := [f] + rest;
    forall p ensures p in Paths(all) <==> p == f.path || p in Paths(rest) {
      if p in Paths(all) {
        var k :| 0 <= k < |all| && all[k].path == p;
        assert k > 0 ==> rest[k - 1].path == p;
      }
      if p in Paths(rest) {
        var k :| 0 <= k < |rest| && rest[k].path == p;
        assert all[k + 1].path == p;
      }
      assert all[0].path == f.path;
    }
  }

  lemma CodesMore(f: SubscribeFilter, rest: seq<SubscribeFilter>)
    ensures Codes([f] + rest) == [f.qos] + Codes(rest)
  {
  }

  lemma {:induction false} SubscribeAllServed(st: State, id: ConnectionId, fs: seq<SubscribeFilter>, codes: seq<QoS>)
    requires id in st.sess
    ensures var (st', codes', refused) := SubscribeAll(st, id, fs, codes);
            var d, granted := DeskOf(st, id), Granted(fs);
            && Served(st, st', id, [], [], d.(known := d.known + Paths(granted), subs := d.subs + Paths(granted)))
            && codes' == codes + Codes(granted) && refused == (|granted| < |fs|)
            && st'.wills == st.wills && st'.panicked == st.panicked && id in st'.sess
            && Roused(st.sess[id].status, st'.sess[id].status)
    decreases |fs|
  {
    hide InRange, DeskOf, PrepareFilter, NextNativeOffset, Served, Refused, SubscriptionRefused, Paths, Codes;
    var d := DeskOf(st, id);
    if fs != [] {
      RefusedIs(fs[0]);
    }
    if fs == [] || Refused(fs[0]) {
      NoneGranted(d.known, codes);
      NoneGranted(d.subs, codes);
      NothingServed(st, id);
    } else {
      var (store, idx, cursor) := NextNativeOffset(st.store, fs[0].path);
      var mid := st.(store := store);
      var next := PrepareFilter(mid, id, fs[0], idx, cursor);
      NewFilterServed(st, id, fs[0].path);
      ServedHas(st, mid, id, [], [], d);
      PrepareServed(mid, id, fs[0], idx, cursor);
      var d1 := d.(known := d.known + {fs[0].path}, subs := d.subs + {fs[0].path});
      ServedOn(st, mid, next, id, [], [], [], [], d, d1, [], []);
      ServedHas(st, next, id, [], [], d1);
      SubscribeAllServed(next, id, fs[1..], codes + [fs[0].qos]);
      var granted := Granted(fs);
      GrantedMore(fs, codes, d.known);
      GrantedMore(fs, codes, d.subs);
      ServedOn(st, next, SubscribeAll(next, id, fs[1..], codes + [fs[0].qos]).0, id, [], [], [], [], d1,
               d.(known := d.known + Paths(granted), subs := d.subs + Paths(granted)), [], []);
    }
  }

  /** The request is for the first of the granted filters with its path, and has the QoS that was granted. */
  ghost predicate GrantedAs(r: DataRequest, granted: seq<SubscribeFilter>, m: nat) {
    && m < |granted| && r.filter == granted[m].path && r.qos == granted[m].qos && r.forwardRetained
    && forall j :: 0 <= j < m ==> granted[j].path != r.filter
  }

  /** The requests of a connection after these filters have been granted: those it had, and behind them only
      such as were granted for a new filter. */
  ghost predicate RequestsFor(s: Session, s': Session, granted: seq<SubscribeFilter>) {
    && s.reqs <= s'.reqs
    && forall k :: |s.reqs| <= k < |s'.reqs| ==>
         s'.reqs[k].filter !in s.subs && exists m: nat :: GrantedAs(s'.reqs[k], granted, m)
  }

  lemma RequestsMore(s: Session, s1: Session, s': Session, f: SubscribeFilter, idx: FilterIdx, cursor: Cursor,
                     since: nat, rest: seq<SubscribeFilter>)
    requires s1 == Prepared(s, f, idx, cursor, since) && RequestsFor(s1, s', rest)
    ensures RequestsFor(s, s', [f] + rest)
  {
    hide TryReady;
    var granted := [f] + rest;
    forall k | |s.reqs| <= k < |s'.reqs|
      ensures s'.reqs[k].filter !in s.subs && exists m: nat :: GrantedAs(s'.reqs[k], granted, m)
    {
      if k < |s1.reqs| {
        assert s'.reqs[k] == s1.reqs[k];
        assert GrantedAs(s'.reqs[k], granted, 0);
      } else {
        var m: nat :| GrantedAs(s'.reqs[k], rest, m);
        assert f.path in s1.subs;
        assert forall j :: 0 < j < |granted| ==> granted[j] == rest[j - 1];
        assert GrantedAs(s'.reqs[k], granted, m + 1);
      }
    }
  }

  /** A refused filter gets no request, and a granted one that is new one with the QoS that SUBACK grants. */
  lemma {:induction false} SubscribeAllRequests(st: State, id: ConnectionId, fs: seq<SubscribeFilter>, codes: seq<QoS>)
    requires id in st.sess
    ensures id in SubscribeAll(st, id, fs, codes).0.sess
    ensures RequestsFor(st.sess[id], SubscribeAll(st, id, fs, codes).0.sess[id], Granted(fs))
    decreases |fs|
  {
    hide InRange, PrepareFilter, NextNativeOffset, Refused, SubscriptionRefused, RequestsFor, Served, DeskOf;
    if fs != [] {
      RefusedIs(fs[0]);
    }
    if fs == [] || Refused(fs[0]) {
      NothingRequested(st.sess[id]);
    } else {
      var (store, idx, cursor) := NextNativeOffset(st.store, fs[0].path);
      var mid := st.(store := store);
      var next := PrepareFilter(mid, id, fs[0], idx, cursor);
      PrepareServed(mid, id, fs[0], idx, cursor);
      SubscribeAllRequests(next, id, fs[1..], codes + [fs[0].qos]);
      var last := SubscribeAll(next, id, fs[1..], codes + [fs[0].qos]).0;
      RequestsMore(st.sess[id], next.sess[id], last.sess[id], fs[0], idx, cursor, |store.accepted|, Granted(fs[1..]));
    }
  }

  lemma NothingRequested(s: Session)
    ensures RequestsFor(s, s, [])
  {
  }

  lemma SubscribeServed(b: Batch, id: ConnectionId, pkid: PacketId, filters: seq<SubscribeFilter>)
    requires id in b.st.sess
    ensures BatchServed(b, OnPacket(b, id, SubscribePacket(pkid, filters)), id, SubscribePacket(pkid, filters))
  {
    hide InRange, SubscribeAll, Served, Pkids, Known, Paths, Granted, With;
    var (st, codes, refused) := SubscribeAll(b.st, id, filters, []);
    SubscribeAllServed(b.st, id, filters, []);
    assert [] + Codes(Granted(filters)) == Codes(Granted(filters));
    var d := DeskOf(b.st, id);
    var d1 := d.(known := d.known + Paths(Granted(filters)), subs := d.subs + Paths(Granted(filters)));
    ServedHas(b.st, st, id, [], [], d1);
    CommittedServed(st, id, SubAck(pkid, codes), st.sess[id].recorded);
    assert Commit(st, id, SubAck(pkid, codes)) ==
           With(st, id, st.sess[id].(committed := st.sess[id].committed + [SubAck(pkid, codes)],
                                     recorded := st.sess[id].recorded));
    ServedOn(b.st, st, Commit(st, id, SubAck(pkid, codes)), id, [], [], [], [SubAck(pkid, codes)], d1, d1, [],
             [SubAck(pkid, codes)]);
  }

  /** Each packet that does not make the router panic is served as its device may expect. */
  lemma PacketServed(b: Batch, id: ConnectionId, p: Packet)
    requires id in b.st.sess && !OnPacket(b, id, p).st.panicked
    ensures BatchServed(b, OnPacket(b, id, p), id, p)
  {
    hide BatchServed, OnPacket;
    match p
    case PublishPacket(q, allowed) => PublishServed(b, id, q, allowed);
    case SubscribePacket(pkid, filters) => SubscribeServed(b, id, pkid, filters);
    case UnsubscribePacket(pkid, filters) => UnsubscribeServed(b, id, pkid, filters);
    case PubAckPacket(pkid) => AckServed(b, id, pkid, false);
    case PubRecPacket(pkid) => AckServed(b, id, pkid, true);
    case PubRelPacket(pkid, allowed) => PubRelServed(b, id, pkid, allowed);
    case PubCompPacket(pkid) => PubCompServed(b, id, pkid);
    case PingReqPacket => PingServed(b, id);
    case DisconnectPacket => DisconnectServed(b, id);
    case OtherPacket => OtherServed(b, id);
  }

  // ---------------------------------------------------------------- a batch

  lemma PublishedStops(b: Batch, p: Publish, allowed: bool)
    requires !b.st.panicked
    ensures Published(b, p, allowed).st.panicked ==> Published(b, p, allowed).stopped
  {
    hide AppendToCommitlog;
  }

  lemma PublishStops(b: Batch, id: ConnectionId, p: Publish, allowed: bool)
    requires id in b.st.sess && !b.st.panicked
    ensures var b' := OnPacket(b, id, PublishPacket(p, allowed)); b'.st.panicked ==> b'.stopped
  {
    hide InRange, Published;
    PublishedStops(b, p, allowed);
    PublishedStops(b.(st := Commit(b.st, id, PubAck(p.pkid)), forceAck := true), p, allowed);
  }

  lemma PubCompStops(b: Batch, id: ConnectionId, pkid: PacketId)
    requires id in b.st.sess && !b.st.panicked
    ensures !OnPacket(b, id, PubCompPacket(pkid)).st.panicked
  {
    hide InRange, RegisterPubcomp;
  }

  lemma PubRelStops(b: Batch, id: ConnectionId, pkid: PacketId, allowed: bool)
    requires id in b.st.sess && !b.st.panicked
    ensures var b' := OnPacket(b, id, PubRelPacket(pkid, allowed)); b'.st.panicked ==> b'.stopped
  {
    hide InRange, Published, Reschedule;
    var s := b.st.sess[id];
    if s.recorded != [] {
      var s' := s.(committed := s.committed + [PubComp(pkid)], recorded := s.recorded[1..]);
      ReleaseStops(b.(st := With(b.st, id, s')), id, s.recorded[0], allowed);
    }
  }

  /** A packet that makes the router panic ends the batch. */
  lemma PanicStops(b: Batch, id: ConnectionId, p: Packet)
    requires id in b.st.sess && !b.st.panicked
    ensures OnPacket(b, id, p).st.panicked ==> OnPacket(b, id, p).stopped
  {
    hide InRange, Published, SubscribeAll, UnsubscribeAll, Acknowledged, RegisterPubcomp, Reschedule, DeskOf, Served,
         Granted, Says, After, Ends;
    match p
    case PublishPacket(q, allowed) => PublishStops(b, id, q, allowed);
    case SubscribePacket(pkid, filters) => SubscribeAllServed(b.st, id, filters, []);
    case UnsubscribePacket(pkid, filters) => UnsubscribeAllServed(b.st, id, pkid, filters, false);
    case PubAckPacket(pkid) => AckedServed(b, id, pkid, false);
    case PubRecPacket(pkid) => AckedServed(b, id, pkid, true);
    case PubRelPacket(pkid, allowed) => PubRelStops(b, id, pkid, allowed);
    case PubCompPacket(pkid) => PubCompStops(b, id, pkid);
    case _ =>
  }

  lemma ReleaseStops(b: Batch, id: ConnectionId, p: Publish, allowed: bool)
    requires id in b.st.sess && !b.st.panicked
    ensures var b' := Published(b, p, allowed);
            && (b'.st.panicked ==> b'.stopped)
            && (!b'.st.panicked ==> id in b'.st.sess && !Reschedule(b'.st, id, IncomingAck).panicked)
  {
    hide Published, Reschedule, Served, DeskOf;
    PublishedStops(b, p, allowed);
    if !Published(b, p, allowed).st.panicked {
      PublishedServed(b, id, p, allowed);
      RescheduleServed(Published(b, p, allowed).st, id, IncomingAck);
    }
  }

  lemma StoppedStays(b: Batch, id: ConnectionId, ps: seq<Packet>)
    requires b.stopped
    ensures OnPackets(b, id, ps) == b
  {
  }

  /** A batch serves its device as it may expect, up to the packet that ends it. */
  ghost predicate BatchIsServed(b: Batch, b': Batch, id: ConnectionId, ps: seq<Packet>) {
    && id in b.st.sess
    && var d := DeskOf(b.st, id);
       && Served(b.st, b'.st, id, AcceptsAll(d, ps), SaysAll(d, ps), AfterAll(d, ps))
       && b'.stopped == EndsAny(d, ps)
       && b'.disconnect == (b.disconnect || DisconnectsAny(d, ps))
       && b'.st.wills == (if DisconnectPacket in Taken(d, ps) then b.st.wills - {b.st.sess[id].client} else b.st.wills)
       && (SaysAll(d, ps) != [] ==> b'.forceAck || b'.disconnect || !IsCaughtup(b'.st.sess[id].status))
       && RousedBy(b.st.sess[id].status, b'.st.sess[id].status, ps)
       && (b.forceAck ==> b'.forceAck)
  }

  lemma NothingRouses(a: Status, ps: seq<Packet>)
    ensures RousedBy(a, a, ps)
  {
  }

  lemma RousedOn(a: Status, b: Status, c: Status, p: Packet, ps: seq<Packet>)
    requires RousedBy(a, b, [p]) && RousedBy(b, c, ps)
    ensures RousedBy(a, c, [p] + ps)
  {
    var all := [p] + ps;
    assert all[0] == p;
    forall k | 0 <= k < |ps| ensures all[k + 1] == ps[k] {
    }
  }

  /** The packet ends the batch. */
  lemma BatchEnds(b: Batch, next: Batch, id: ConnectionId, ps: seq<Packet>)
    requires ps != [] && !b.stopped && BatchServed(b, next, id, ps[0]) && next.stopped
    ensures BatchIsServed(b, next, id, ps)
  {
    hide InRange, DeskOf, Served, Accepts, Says, After, Ends, Disconnects, RousedBy;
    var d := DeskOf(b.st, id);
    ServedHas(b.st, next.st, id, Accepts(d, ps[0]), Says(d, ps[0]), After(d, ps[0]));
    assert Accepts(d, ps[0]) + [] == Accepts(d, ps[0]) && Says(d, ps[0]) + [] == Says(d, ps[0]);
    NothingRouses(next.st.sess[id].status, ps[1..]);
    RousedOn(b.st.sess[id].status, next.st.sess[id].status, next.st.sess[id].status, ps[0], ps[1..]);
    assert [ps[0]] + ps[1..] == ps;
  }

  /** It does not, and the others follow. */
  lemma BatchGoesOn(b: Batch, next: Batch, last: Batch, id: ConnectionId, ps: seq<Packet>)
    requires ps != [] && !b.stopped && BatchServed(b, next, id, ps[0]) && !next.stopped
    requires BatchIsServed(next, last, id, ps[1..])
    ensures BatchIsServed(b, last, id, ps)
  {
    hide InRange, DeskOf, Served, Accepts, Says, After, Ends, Disconnects, RousedBy;
    var d, rest := DeskOf(b.st, id), ps[1..];
    var d1 := After(d, ps[0]);
    ServedHas(b.st, next.st, id, Accepts(d, ps[0]), Says(d, ps[0]), d1);
    ServedHas(next.st, last.st, id, AcceptsAll(d1, rest), SaysAll(d1, rest), AfterAll(d1, rest));
    ServedOn(b.st, next.st, last.st, id, Accepts(d, ps[0]), AcceptsAll(d1, rest), Says(d, ps[0]), SaysAll(d1, rest), d1,
             AfterAll(d1, rest), AcceptsAll(d, ps), SaysAll(d, ps));
    RousedRests(next.st.sess[id].status, last.st.sess[id].status, rest);
    RousedOn(b.st.sess[id].status, next.st.sess[id].status, last.st.sess[id].status, ps[0], rest);
    assert [ps[0]] + rest == ps;
  }

  lemma {:induction false} PacketsServed(b: Batch, id: ConnectionId, ps: seq<Packet>)
    requires id in b.st.sess && !b.stopped && !b.st.panicked && !OnPackets(b, id, ps).st.panicked
    ensures BatchIsServed(b, OnPackets(b, id, ps), id, ps)
    decreases |ps|
  {
    hide InRange, DeskOf, OnPacket, Served, RousedBy, BatchServed;
    if ps == [] {
      NothingRouses(b.st.sess[id].status, ps);
      NothingServed(b.st, id);
    } else {
      var next := OnPacket(b, id, ps[0]);
      PanicStops(b, id, ps[0]);
      if next.stopped {
        StoppedStays(next, id, ps[1..]);
      }
      PacketServed(b, id, ps[0]);
      if next.stopped {
        BatchEnds(b, next, id, ps);
      } else {
        HasKey(b, next, id, ps[0]);
        PacketsServed(next, id, ps[1..]);
        BatchGoesOn(b, next, OnPackets(next, id, ps[1..]), id, ps);
      }
    }
  }

  lemma HasKey(b: Batch, next: Batch, id: ConnectionId, p: Packet)
    requires BatchServed(b, next, id, p)
    ensures id in next.st.sess
  {
  }
}
