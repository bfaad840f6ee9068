/** A batch of packets from one device keeps the invariant. */
module RouterBatch {
  import opened Basics
  import opened RouterTypes
  import opened StoreSpec
  import opened WindowSpec
  import opened RouterSpec
  import opened RouterInv
  import opened RouterSchedule
  import opened RouterPublish
  import opened RouterPackets
  import opened RouterSubscribe
  import opened RouterUnsubscribe
  import opened RouterSessions

  /** The packet may wake waiters: their requests stay among the notifications until the batch ends. */
  predicate Appends(p: Packet) {
    (p.PublishPacket? && !p.publish.qos.ExactlyOnce?) || p.PubRelPacket?
  }

  /** No Unsubscribe comes after a packet that may wake waiters. */
  ghost predicate UnsubscribesFirst(ps: seq<Packet>) {
    forall i, j :: 0 <= i < j < |ps| && Appends(ps[i]) ==> !ps[j].UnsubscribePacket?
  }

  ghost predicate NoUnsubscribe(ps: seq<Packet>) {
    forall j :: 0 <= j < |ps| ==> !ps[j].UnsubscribePacket?
  }

  /** What holds within a batch.  Once the batch has stopped, the connection is going to be dropped, and
      only then may its window be out of step with its pause. */
  ghost predicate BatchOk(b: Batch, id: ConnectionId) {
    && Core(b.st)
    && id in b.st.sess
    && ClientsOk(b.st.sess, b.st.byClient)
    && FullBut(b.st.sess, id)
    && (if b.stopped then b.disconnect else FullOk(b.st.sess[id]))
    && (b.st.notes != [] ==> b.newData)
  }

  /** Only what a packet may change of the rest of the router. */
  ghost predicate Onward(st: State, st': State) {
    Continues(st.sess, st'.sess) && st'.byClient == st.byClient
  }

  lemma OnwardKeeps(b: Batch, b': Batch, id: ConnectionId)
    requires BatchOk(b, id) && !b.stopped && Core(b'.st) && Onward(b.st, b'.st)
    requires b'.stopped ==> b'.disconnect
    requires b'.st.notes != [] ==> b'.newData
    ensures BatchOk(b', id)
  {
    hide Core;
    ContinuesClients(b.st.sess, b'.st.sess, b.st.byClient);
    forall i | i in b'.st.sess && i != id ensures FullOk(b'.st.sess[i]) {
      assert FullOk(b.st.sess[i]) && ContinuesOne(b.st.sess[i], b'.st.sess[i]);
    }
    assert ContinuesOne(b.st.sess[id], b'.st.sess[id]);
  }

  // ---------------------------------------------------------------- where a batch panics

  /** The packet makes the broker accept a publish whose topic it cannot compare with a filter it has. */
  predicate PacketFails(b: Batch, id: ConnectionId, packet: Packet) {
    id in b.st.sess &&
    match packet
    case PublishPacket(p, allowed) => !p.qos.ExactlyOnce? && allowed && LookupFails(b.st.store, p.topic)
    case PubRelPacket(_, allowed) =>
      var recorded := b.st.sess[id].recorded;
      recorded != [] && allowed && LookupFails(b.st.store, recorded[0].topic)
    case _ => false
  }

  /** The batch comes to such a packet. */
  predicate BatchFails(b: Batch, id: ConnectionId, ps: seq<Packet>)
    decreases |ps|
  {
    ps != [] && !b.stopped && (PacketFails(b, id, ps[0]) || BatchFails(OnPacket(b, id, ps[0]), id, ps[1..]))
  }

  lemma AppendPanics(st: State, p: Publish)
    requires LookupFails(st.store, p.topic)
    ensures AppendToCommitlog(st, p).panicked
  {
    hide UpdateRetained, Accept;
  }

  lemma PublishedPanics(b: Batch, p: Publish)
    requires LookupFails(b.st.store, p.topic)
    ensures Published(b, p, true).st.panicked && Published(b, p, true).stopped
  {
    hide AppendToCommitlog, LookupFails;
    AppendPanics(b.st, p);
  }

  lemma PacketPanics(b: Batch, id: ConnectionId, packet: Packet)
    requires PacketFails(b, id, packet)
    ensures OnPacket(b, id, packet).st.panicked && OnPacket(b, id, packet).stopped
  {
    hide Published, LookupFails, SubscribeAll, UnsubscribeAll, Acknowledged, RegisterPubcomp, Reschedule;
    var s := b.st.sess[id];
    match packet
    case PublishPacket(p, allowed) =>
      PublishedPanics(b, p);
      PublishedPanics(b.(st := Commit(b.st, id, PubAck(p.pkid)), forceAck := true), p);
    case PubRelPacket(pkid, allowed) =>
      var s' := s.(committed := s.committed + [PubComp(pkid)], recorded := s.recorded[1..]);
      PublishedPanics(b.(st := With(b.st, id, s')), s.recorded[0]);
  }

  /** Then the router panics, and nothing more is done. */
  lemma {:induction false} BatchPanics(b: Batch, id: ConnectionId, ps: seq<Packet>)
    requires BatchFails(b, id, ps)
    ensures OnPackets(b, id, ps).st.panicked
    decreases |ps|
  {
    hide OnPacket, PacketFails;
    if PacketFails(b, id, ps[0]) {
      PacketPanics(b, id, ps[0]);
    } else {
      BatchPanics(OnPacket(b, id, ps[0]), id, ps[1..]);
    }
  }

  // ---------------------------------------------------------------- packet by packet

  lemma PublishedKeeps(b: Batch, id: ConnectionId, p: Publish, allowed: bool)
    requires BatchOk(b, id) && !b.stopped && !(allowed && LookupFails(b.st.store, p.topic))
    ensures BatchOk(Published(b, p, allowed), id)
    ensures allowed ==> !Published(b, p, allowed).stopped
  {
    hide Core, AppendToCommitlog, LookupFails;
    if allowed {
      PublishKeepsCore(b.st, p);
      NotPanickedYet(AppendToCommitlog(b.st, p));
      ContinuesWith(b.st.sess, id, b.st.sess[id]);
      OnwardKeeps(b, Published(b, p, allowed), id);
    }
  }

  lemma NotPanickedYet(st: State)
    requires Core(st)
    ensures !st.panicked
  {
    hide StoreOk, SessionsOk, WaitersOk, NotesOk, CountsOk, ReadyOk, GraveOk, OriginsOk;
  }

  /** The batch goes on with acknowledgements to make, and perhaps with a publish recorded or released. */
  function Committed(b: Batch, id: ConnectionId, acks: seq<Ack>, recorded: seq<Publish>, force: bool): Batch
    requires id in b.st.sess
  {
    var s := b.st.sess[id];
    b.(st := With(b.st, id, s.(committed := s.committed + acks, recorded := recorded)), forceAck := b.forceAck || force)
  }

  lemma CommittedKeeps(b: Batch, id: ConnectionId, acks: seq<Ack>, recorded: seq<Publish>, force: bool)
    requires BatchOk(b, id) && !b.stopped
    ensures BatchOk(Committed(b, id, acks, recorded, force), id)
    ensures !Committed(b, id, acks, recorded, force).stopped
  {
    hide Core;
    var s := b.st.sess[id];
    CommittedKeepsCore(b.st, id, acks, recorded);
    ContinuesWith(b.st.sess, id, s.(committed := s.committed + acks, recorded := recorded));
    OnwardKeeps(b, Committed(b, id, acks, recorded, force), id);
  }

  lemma StopKeeps(b: Batch, id: ConnectionId)
    requires BatchOk(b, id)
    ensures BatchOk(Stop(b), id)
  {
    hide Core;
  }

  lemma RescheduledKeeps(b: Batch, id: ConnectionId, reason: ScheduleReason)
    requires BatchOk(b, id) && !b.stopped
    ensures BatchOk(b.(st := Reschedule(b.st, id, reason)), id)
  {
    hide Core;
    RescheduleKeepsCore(b.st, id, reason);
    RescheduleKeepsFull(b.st, id, reason);
    OnwardKeeps(b, b.(st := Reschedule(b.st, id, reason)), id);
  }

  lemma WithLeaves(st: State, id: ConnectionId, s: Session)
    ensures With(st, id, s).notes == st.notes && With(st, id, s).byClient == st.byClient
    ensures id in With(st, id, s).sess
  {
  }

  lemma RescheduleClients(st: State, id: ConnectionId, reason: ScheduleReason)
    ensures Reschedule(st, id, reason).byClient == st.byClient
  {
    hide With;
    if id in st.sess {
      WithLeaves(st, id, st.sess[id].(status := Ready));
    }
  }

  lemma RescheduleNotes(st: State, id: ConnectionId, reason: ScheduleReason)
    ensures Reschedule(st, id, reason).notes == st.notes
  {
    hide InRange;
  }

  lemma PrepareFilterClients(st: State, id: ConnectionId, f: SubscribeFilter, idx: FilterIdx, cursor: Cursor)
    requires id in st.sess
    ensures PrepareFilter(st, id, f, idx, cursor).byClient == st.byClient
  {
    hide Reschedule, With;
    var s := st.sess[id];
    if f.path !in s.subs {
      var ids := if f.path in st.subMap then st.subMap[f.path] else {};
      var st1 := st.(subMap := st.subMap[f.path := ids + {id}]);
      var o := Origin(cursor.1, |st.store.accepted|, cursor.1, |s.out.sent|, true);
      var s1 := s.(subs := s.subs + {f.path}, origin := s.origin[f.path := o]);
      var st2 := With(st1, id, s1);
      WithLeaves(st1, id, s1);
      var r := DataRequest(f.path, idx, f.qos, cursor, 0, true);
      WithLeaves(st2, id, st2.sess[id].(reqs := st2.sess[id].reqs + [r]));
      RescheduleClients(Track(st2, id, r), id, NewFilter);
    }
  }

  lemma {:induction false} SubscribeAllClients(st: State, id: ConnectionId, fs: seq<SubscribeFilter>, codes: seq<QoS>)
    ensures SubscribeAll(st, id, fs, codes).0.byClient == st.byClient
    decreases |fs|
  {
    hide NextNativeOffset, SubscriptionRefused, PrepareFilter;
    if fs != [] && id in st.sess && !SubscriptionRefused(fs[0]) {
      var (store, idx, cursor) := NextNativeOffset(st.store, fs[0].path);
      PrepareFilterClients(st.(store := store), id, fs[0], idx, cursor);
      SubscribeAllClients(PrepareFilter(st.(store := store), id, fs[0], idx, cursor), id, fs[1..], codes + [fs[0].qos]);
    }
  }

  lemma {:induction false} UnsubscribeAllClients(st: State, id: ConnectionId, pkid: PacketId, fs: seq<Text>,
                                                 acked: bool)
    ensures UnsubscribeAll(st, id, pkid, fs, acked).0.byClient == st.byClient
    decreases |fs|
  {
    if fs != [] {
      var (st', did) := UnsubscribeOne(st, id, pkid, fs[0]);
      UnsubscribeAllClients(st', id, pkid, fs[1..], acked || did);
    }
  }

  lemma SubscribedKeeps(b: Batch, id: ConnectionId, pkid: PacketId, filters: seq<SubscribeFilter>)
    requires BatchOk(b, id) && !b.stopped
    ensures BatchOk(OnPacket(b, id, SubscribePacket(pkid, filters)), id)
    ensures !OnPacket(b, id, SubscribePacket(pkid, filters)).stopped
  {
    hide Core;
    SubscribeAllKeepsCore(b.st, id, filters, []);
    SubscribeAllClients(b.st, id, filters, []);
    var (st, codes, refused) := SubscribeAll(b.st, id, filters, []);
    var b1 := b.(st := st, disconnect := b.disconnect || refused);
    OnwardKeeps(b, b1, id);
    var s := st.sess[id];
    CommittedKeeps(b1, id, [SubAck(pkid, codes)], s.recorded, true);
    assert s.(committed := s.committed + [SubAck(pkid, codes)], recorded := s.recorded) ==
           s.(committed := s.committed + [SubAck(pkid, codes)]);
  }

  lemma UnsubscribedKeeps(b: Batch, id: ConnectionId, pkid: PacketId, filters: seq<Text>)
    requires BatchOk(b, id) && !b.stopped && b.st.notes == []
    ensures BatchOk(OnPacket(b, id, UnsubscribePacket(pkid, filters)), id)
    ensures OnPacket(b, id, UnsubscribePacket(pkid, filters)).st.notes == []
  {
    hide Core;
    UnsubscribeAllKeepsCore(b.st, id, pkid, filters, false);
    UnsubscribeAllClients(b.st, id, pkid, filters, false);
    OnwardKeeps(b, OnPacket(b, id, UnsubscribePacket(pkid, filters)), id);
  }

  lemma AckedFull(b: Batch, id: ConnectionId, pkid: PacketId, rec: bool)
    requires BatchOk(b, id) && !b.stopped
    ensures var st := With(b.st, id, AckedSession(b.st.sess[id], pkid, rec));
            && ClientsOk(st.sess, st.byClient) && FullBut(st.sess, id)
            && FullOk(Reschedule(st, id, IncomingAck).sess[id])
  {
    hide Core;
    var s' := AckedSession(b.st.sess[id], pkid, rec);
    var sess := b.st.sess[id := s'];
    forall i | i in sess && i != id ensures FullOk(sess[i]) {
      assert FullOk(b.st.sess[i]);
    }
  }

  /** An acknowledgement in order makes room, so a connection that was paused for a full window is
      ready again; one out of order ends the batch. */
  lemma AcknowledgedKeeps(b: Batch, id: ConnectionId, pkid: PacketId, rec: bool)
    requires BatchOk(b, id) && !b.stopped
    ensures BatchOk(Acknowledged(b, id, pkid, rec), id)
  {
    hide Core;
    AckedKeepsCore(b.st, id, pkid, rec);
    AckedFull(b, id, pkid, rec);
    var st := With(b.st, id, AckedSession(b.st.sess[id], pkid, rec));
    StopKeeps(b.(st := st, disconnect := true, stopped := true), id);
    if RegisterAck(b.st.sess[id].out, pkid).1 {
      RescheduleKeepsCore(st, id, IncomingAck);
      RescheduleKeepsFull(st, id, IncomingAck);
      RescheduledAckKeeps(st, id);
    }
  }

  lemma RescheduledAckKeeps(st: State, id: ConnectionId)
    requires id in st.sess && ClientsOk(st.sess, st.byClient) && FullBut(st.sess, id)
    ensures var st' := Reschedule(st, id, IncomingAck);
            ClientsOk(st'.sess, st'.byClient) && FullBut(st'.sess, id)
  {
    hide Core;
    var st' := Reschedule(st, id, IncomingAck);
    RescheduleKeepsFull(st, id, IncomingAck);
    ContinuesClients(st.sess, st'.sess, st.byClient);
    forall i | i in st'.sess && i != id ensures FullOk(st'.sess[i]) {
      assert FullOk(st.sess[i]) && ContinuesOne(st.sess[i], st'.sess[i]);
    }
  }

  lemma PubRelKeeps(b: Batch, id: ConnectionId, pkid: PacketId, allowed: bool)
    requires BatchOk(b, id) && !b.stopped && !PacketFails(b, id, PubRelPacket(pkid, allowed))
    ensures BatchOk(OnPacket(b, id, PubRelPacket(pkid, allowed)), id)
  {
    hide Core;
    var s := b.st.sess[id];
    if s.recorded == [] {
      CommittedKeeps(b, id, [PubComp(pkid)], s.recorded, false);
      StopKeeps(Committed(b, id, [PubComp(pkid)], s.recorded, false), id);
    } else {
      CommittedKeeps(b, id, [PubComp(pkid)], s.recorded[1..], false);
      var b1 := Committed(b, id, [PubComp(pkid)], s.recorded[1..], false);
      PublishedKeeps(b1, id, s.recorded[0], allowed);
      if allowed {
        RescheduledKeeps(Published(b1, s.recorded[0], allowed), id, IncomingAck);
      }
    }
  }

  lemma PubCompKeeps(b: Batch, id: ConnectionId, pkid: PacketId)
    requires BatchOk(b, id) && !b.stopped
    ensures BatchOk(OnPacket(b, id, PubCompPacket(pkid)), id)
  {
    hide Core;
    var s := b.st.sess[id];
    var s' := s.(out := RegisterPubcomp(s.out, pkid).0);
    PubcompKeepsCore(b.st, id, pkid);
    ContinuesWith(b.st.sess, id, s');
    OnwardKeeps(b, b.(st := With(b.st, id, s')), id);
    StopKeeps(b.(st := With(b.st, id, s')), id);
  }

  lemma PublishPacketKeeps(b: Batch, id: ConnectionId, p: Publish, allowed: bool)
    requires BatchOk(b, id) && !b.stopped && !PacketFails(b, id, PublishPacket(p, allowed))
    ensures BatchOk(OnPacket(b, id, PublishPacket(p, allowed)), id)
  {
    hide Core;
    var s := b.st.sess[id];
    match p.qos
    case AtMostOnce => PublishedKeeps(b, id, p, allowed);
    case AtLeastOnce =>
      CommittedKeeps(b, id, [PubAck(p.pkid)], s.recorded, true);
      PublishedKeeps(Committed(b, id, [PubAck(p.pkid)], s.recorded, true), id, p, allowed);
    case ExactlyOnce =>
      CommittedKeeps(b, id, [PubRec(p.pkid)], s.recorded + [p], true);
  }

  lemma WillsKeepCore(st: State, wills: map<Text, Publish>)
    requires Core(st)
    ensures Core(st.(wills := wills))
  {
  }

  lemma DisconnectKeeps(b: Batch, id: ConnectionId)
    requires BatchOk(b, id) && !b.stopped
    ensures BatchOk(OnPacket(b, id, DisconnectPacket), id)
  {
    hide Core;
    var st := b.st.(wills := b.st.wills - {b.st.sess[id].client});
    WillsKeepCore(b.st, st.wills);
    ContinuesWith(b.st.sess, id, b.st.sess[id]);
    OnwardKeeps(b, b.(st := st), id);
    StopKeeps(b.(st := st), id);
  }

  lemma PingKeeps(b: Batch, id: ConnectionId)
    requires BatchOk(b, id) && !b.stopped
    ensures BatchOk(OnPacket(b, id, PingReqPacket), id)
  {
    hide Core;
    CommittedKeeps(b, id, [PingResp], b.st.sess[id].recorded, true);
  }

  lemma PacketKeeps(b: Batch, id: ConnectionId, packet: Packet)
    requires BatchOk(b, id) && !b.stopped && !PacketFails(b, id, packet)
    requires packet.UnsubscribePacket? ==> b.st.notes == []
    ensures BatchOk(OnPacket(b, id, packet), id)
  {
    hide Core;
    match packet
    case PublishPacket(p, allowed) => PublishPacketKeeps(b, id, p, allowed);
    case SubscribePacket(pkid, filters) => SubscribedKeeps(b, id, pkid, filters);
    case UnsubscribePacket(pkid, filters) => UnsubscribedKeeps(b, id, pkid, filters);
    case PubAckPacket(pkid) => AcknowledgedKeeps(b, id, pkid, false);
    case PubRecPacket(pkid) => AcknowledgedKeeps(b, id, pkid, true);
    case PubRelPacket(pkid, allowed) => PubRelKeeps(b, id, pkid, allowed);
    case PubCompPacket(pkid) => PubCompKeeps(b, id, pkid);
    case PingReqPacket => PingKeeps(b, id);
    case DisconnectPacket => DisconnectKeeps(b, id);
    case OtherPacket =>
  }

  lemma QuietSubscribe(b: Batch, id: ConnectionId, pkid: PacketId, filters: seq<SubscribeFilter>)
    requires BatchOk(b, id) && !b.stopped && b.st.notes == []
    ensures OnPacket(b, id, SubscribePacket(pkid, filters)).st.notes == []
  {
    hide Core;
    SubscribeAllKeepsCore(b.st, id, filters, []);
  }

  lemma QuietAck(b: Batch, id: ConnectionId, pkid: PacketId, rec: bool)
    requires id in b.st.sess
    ensures Acknowledged(b, id, pkid, rec).st.notes == b.st.notes
  {
    hide RegisterAck, Reschedule, RegisterPubrec, With;
    var s := b.st.sess[id];
    var (out, ok) := RegisterAck(s.out, pkid);
    var s' := if !ok || !rec then s.(out := out)
              else s.(out := RegisterPubrec(out, pkid), committed := s.committed + [PubRel(pkid)]);
    WithLeaves(b.st, id, s');
    RescheduleKeepsFull(With(b.st, id, s'), id, IncomingAck);
  }

  /** Packets that do not append wake nobody. */
  lemma QuietPacket(b: Batch, id: ConnectionId, packet: Packet)
    requires BatchOk(b, id) && !b.stopped && b.st.notes == [] && !Appends(packet)
    ensures OnPacket(b, id, packet).st.notes == []
  {
    hide Core, ClientsOk, FullBut, FullOk, RegisterPubcomp, Acknowledged, SubscribeAll, UnsubscribeAll;
    match packet
    case SubscribePacket(pkid, filters) => QuietSubscribe(b, id, pkid, filters);
    case UnsubscribePacket(pkid, filters) => UnsubscribedKeeps(b, id, pkid, filters);
    case PubAckPacket(pkid) => QuietAck(b, id, pkid, false);
    case PubRecPacket(pkid) => QuietAck(b, id, pkid, true);
    case _ =>
  }

  // ---------------------------------------------------------------- the batch

  lemma {:induction false} PacketsKeep(b: Batch, id: ConnectionId, ps: seq<Packet>)
    requires BatchOk(b, id) && UnsubscribesFirst(ps) && !BatchFails(b, id, ps)
    requires b.st.notes == [] || NoUnsubscribe(ps)
    ensures BatchOk(OnPackets(b, id, ps), id)
    decreases |ps|
  {
    hide Core;
    if ps != [] && !b.stopped {
      var next := OnPacket(b, id, ps[0]);
      PacketKeeps(b, id, ps[0]);
      if b.st.notes == [] && !Appends(ps[0]) {
        QuietPacket(b, id, ps[0]);
      }
      PacketsKeep(next, id, ps[1..]);
    }
  }

  lemma TrackClients(st: State, id: ConnectionId, r: DataRequest)
    ensures Track(st, id, r).byClient == st.byClient && Track(st, id, r).notes == st.notes
  {
    hide InRange;
  }

  lemma {:induction false} DrainClients(st: State)
    ensures Drain(st).byClient == st.byClient
    decreases |st.notes|
  {
    hide Track, Reschedule, InRange;
    if st.notes != [] {
      var (id, r) := st.notes[0];
      var tracked := Track(st.(notes := st.notes[1..]), id, r);
      TrackClients(st.(notes := st.notes[1..]), id, r);
      RescheduleClients(tracked, id, FreshData);
      if !tracked.panicked {
        RescheduleNotes(tracked, id, FreshData);
        DrainClients(Reschedule(tracked, id, FreshData));
      }
    }
  }

  /** What the batch leaves for its end. */
  lemma FinishKeepsInv(b: Batch, id: ConnectionId)
    requires BatchOk(b, id)
    ensures Inv(FinishBatch(b, id))
  {
    hide Core;
    NotPanickedYet(b.st);
    var acked := if b.forceAck then Reschedule(b.st, id, FreshData) else b.st;
    AckedOnward(b, id);
    DrainKeepsCore(acked);
    DrainClients(acked);
    var woken := if b.newData then Drain(acked) else acked;
    FinishedKeepsInv(b, id, acked, woken);
  }

  lemma AckedOnward(b: Batch, id: ConnectionId)
    requires BatchOk(b, id)
    ensures var acked := if b.forceAck then Reschedule(b.st, id, FreshData) else b.st;
            Core(acked) && Onward(b.st, acked) && acked.notes == b.st.notes
  {
    hide Core;
    ContinuesWith(b.st.sess, id, b.st.sess[id]);
    RescheduleKeepsCore(b.st, id, FreshData);
    RescheduleKeepsFull(b.st, id, FreshData);
  }

  lemma FinishedKeepsInv(b: Batch, id: ConnectionId, acked: State, woken: State)
    requires BatchOk(b, id) && Onward(b.st, acked) && Onward(acked, woken)
    requires Core(woken) && woken.notes == []
    ensures Inv(if b.disconnect then HandleDisconnection(woken, id) else woken)
  {
    hide Core;
    ContinuesOn(b.st.sess, acked.sess, woken.sess);
    ContinuesClients(b.st.sess, woken.sess, b.st.byClient);
    forall i | i in woken.sess && (i != id || !b.disconnect) ensures FullOk(woken.sess[i]) {
      assert FullOk(b.st.sess[i]) && ContinuesOne(b.st.sess[i], woken.sess[i]);
    }
    if b.disconnect {
      DisconnectionKeepsInv(woken, id);
    }
  }

  /** Nothing has been done yet. */
  function Begun(st: State): Batch { Batch(st, false, false, false, false) }

  /** Handling a batch of packets makes the router panic. */
  predicate PayloadFails(st: State, id: ConnectionId, packets: seq<Packet>) {
    id in st.sess && BatchFails(Begun(st), id, packets)
  }

  lemma PayloadPanics(st: State, id: ConnectionId, packets: seq<Packet>)
    requires PayloadFails(st, id, packets)
    ensures HandleDevicePayload(st, id, packets).panicked
  {
    hide OnPackets, BatchFails;
    BatchPanics(Begun(st), id, packets);
  }

  lemma PayloadKeepsInv(st: State, id: ConnectionId, packets: seq<Packet>)
    requires Inv(st) && UnsubscribesFirst(packets) && !PayloadFails(st, id, packets)
    ensures Inv(HandleDevicePayload(st, id, packets))
  {
    hide Core, OnPackets, FinishBatch, BatchFails;
    if id in st.sess {
      var b := Begun(st);
      assert FullOk(st.sess[id]);
      assert FullBut(st.sess, id);
      PacketsKeep(b, id, packets);
      FinishKeepsInv(OnPackets(b, id, packets), id);
    }
  }

  lemma OnwardKeepsInv(st: State, st': State)
    requires Inv(st) && Core(st') && st'.notes == [] && Onward(st, st')
    ensures Inv(st')
  {
    hide Core;
    ContinuesClients(st.sess, st'.sess, st.byClient);
    forall i | i in st'.sess ensures FullOk(st'.sess[i]) {
      assert FullOk(st.sess[i]) && ContinuesOne(st.sess[i], st'.sess[i]);
    }
  }

  /** Publishing a last will makes the router panic. */
  predicate WillFails(st: State, client: Text) {
    client in st.wills && LookupFails(st.store, st.wills[client].topic)
  }

  lemma WillPanics(st: State, client: Text)
    requires WillFails(st, client)
    ensures HandleLastWill(st, client).panicked
  {
  }

  lemma LastWillKeepsInv(st: State, client: Text)
    requires Inv(st) && !WillFails(st, client)
    ensures Inv(HandleLastWill(st, client))
  {
    hide Core, AppendToCommitlog, Drain;
    if client in st.wills {
      var st1 := st.(wills := st.wills - {client});
      WillsKeepCore(st, st1.wills);
      PublishKeepsCore(st1, st.wills[client]);
      var st2 := AppendToCommitlog(st1, st.wills[client]);
      NotPanickedYet(st2);
      DrainKeepsCore(st2);
      DrainClients(st2);
      OnwardKeepsInv(st, Drain(st2));
    }
  }
}
