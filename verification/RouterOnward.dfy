/** What no operation of the router takes back: accepted publishes, the histories of the logs, and the
    order of the ready queue. */
module RouterOnward {
  import opened Basics
  import opened LogSpec
  import opened RouterTypes
  import opened StoreSpec
  import opened WindowSpec
  import opened RouterSpec

  ghost predicate DataExtends(d: Data, e: Data) {
    e.filter == d.filter && e.born == d.born && d.hist <= e.hist
  }

  ghost predicate StoreExtends(a: Store, b: Store) {
    && a.accepted <= b.accepted
    && |a.logs| <= |b.logs|
    && forall j :: 0 <= j < |a.logs| ==> DataExtends(a.logs[j], b.logs[j])
  }

  /** An event only adds: to the store, and to the end of the ready queue. */
  ghost predicate Leaves(st: State, st': State) {
    && StoreExtends(st.store, st'.store)
    && st.ready <= st'.ready
    && st'.inbox == st.inbox
  }

  /** A connection stays as it is, or becomes ready and is queued once more; its link goes on with what it
      is doing. */
  ghost predicate Promoted(s: Session, n: nat, s': Session, n': nat) {
    && s'.wire.link == s.wire.link
    && ((s'.status == s.status && n' == n) || (s.status.Paused? && s'.status.Ready? && n' == n + 1))
  }

  ghost predicate Promotes(sess: map<ConnectionId, Session>, ready: seq<ConnectionId>,
                           sess': map<ConnectionId, Session>, ready': seq<ConnectionId>) {
    forall id :: id in sess' ==>
      id in sess && Promoted(sess[id], multiset(ready)[id], sess'[id], multiset(ready')[id])
  }

  ghost predicate Adds(st: State, st': State) {
    Leaves(st, st') && Promotes(st.sess, st.ready, st'.sess, st'.ready)
  }

  lemma StoreOn(a: Store, b: Store, c: Store)
    requires StoreExtends(a, b) && StoreExtends(b, c)
    ensures StoreExtends(a, c)
  {
    forall j | 0 <= j < |a.logs| ensures DataExtends(a.logs[j], c.logs[j]) {
      assert DataExtends(a.logs[j], b.logs[j]) && DataExtends(b.logs[j], c.logs[j]);
    }
  }

  lemma LeavesOn(a: State, b: State, c: State)
    requires Leaves(a, b) && Leaves(b, c)
    ensures Leaves(a, c)
  {
    hide StoreExtends;
    StoreOn(a.store, b.store, c.store);
  }

  lemma AddsOn(a: State, b: State, c: State)
    requires Adds(a, b) && Adds(b, c)
    ensures Adds(a, c)
  {
    hide Leaves;
    LeavesOn(a, b, c);
    forall id | id in c.sess
      ensures id in a.sess
      ensures Promoted(a.sess[id], multiset(a.ready)[id], c.sess[id], multiset(c.ready)[id])
    {
      assert Promoted(b.sess[id], multiset(b.ready)[id], c.sess[id], multiset(c.ready)[id]);
      assert Promoted(a.sess[id], multiset(a.ready)[id], b.sess[id], multiset(b.ready)[id]);
    }
  }

  lemma StoreSelf(store: Store)
    ensures StoreExtends(store, store)
  {
  }

  lemma PromotesSelf(sess: map<ConnectionId, Session>, ready: seq<ConnectionId>)
    ensures Promotes(sess, ready, sess, ready)
  {
  }

  lemma PromotesWith(sess: map<ConnectionId, Session>, ready: seq<ConnectionId>, id: ConnectionId, s: Session)
    requires id in sess && s.status == sess[id].status && s.wire.link == sess[id].wire.link
    ensures Promotes(sess, ready, sess[id := s], ready)
  {
  }

  lemma PromotesOne(sess: map<ConnectionId, Session>, ready: seq<ConnectionId>, id: ConnectionId, s: Session)
    requires id in sess && sess[id].status.Paused? && s.status.Ready? && s.wire.link == sess[id].wire.link
    ensures Promotes(sess, ready, sess[id := s], ready + [id])
  {
  }

  lemma AddsSelf(st: State)
    ensures Adds(st, st)
  {
    hide StoreExtends, Promotes;
    StoreSelf(st.store);
    PromotesSelf(st.sess, st.ready);
  }

  lemma WithAdds(st: State, id: ConnectionId, s: Session)
    requires id in st.sess && s.status == st.sess[id].status && s.wire.link == st.sess[id].wire.link
    ensures Adds(st, With(st, id, s))
  {
    hide StoreExtends, Promotes;
    StoreSelf(st.store);
    PromotesWith(st.sess, st.ready, id, s);
  }

  lemma SameHistories(a: Store, b: Store)
    requires b.accepted == a.accepted && |b.logs| == |a.logs|
    requires forall j :: 0 <= j < |a.logs| ==> b.logs[j] == a.logs[j].(waiters := b.logs[j].waiters)
    ensures StoreExtends(a, b)
  {
  }

  // ---------------------------------------------------------------- operations

  lemma RescheduleAdds(st: State, id: ConnectionId, reason: ScheduleReason)
    ensures Adds(st, Reschedule(st, id, reason))
  {
    hide StoreExtends, Promotes;
    StoreSelf(st.store);
    PromotesSelf(st.sess, st.ready);
    if id in st.sess && st.sess[id].status.Paused? && TryReady(st.sess[id].status, reason).Ready? {
      PromotesOne(st.sess, st.ready, id, st.sess[id].(status := Ready));
    }
  }

  lemma {:induction false} AppendManyExtends(logs: seq<Data>, idxs: seq<FilterIdx>, item: Publish, j: nat)
    requires forall i :: 0 <= i < |idxs| ==> idxs[i] < |logs|
    requires j < |logs|
    ensures DataExtends(logs[j], AppendMany(logs, idxs, item).0[j])
    decreases |idxs|
  {
    if idxs != [] {
      var more := logs[idxs[0] := AppendOne(logs[idxs[0]], item)];
      AppendManyExtends(more, idxs[1..], item, j);
      assert DataExtends(logs[j], more[j]);
    }
  }

  lemma AppendAdds(st: State, p: Publish)
    ensures Adds(st, AppendToCommitlog(st, p))
  {
    hide Accept, Promotes, StoreExtends, UpdateRetained, LookupFails;
    PromotesSelf(st.sess, st.ready);
    if LookupFails(st.store, p.topic) {
      RetainedExtends(st.store, p);
    } else {
      AcceptExtends(st.store, p);
    }
  }

  lemma RetainedExtends(store: Store, p: Publish)
    ensures StoreExtends(store, UpdateRetained(store, p))
  {
  }

  lemma AcceptExtends(store: Store, p: Publish)
    requires !LookupFails(store, p.topic)
    ensures StoreExtends(store, Accept(store, p).0)
  {
    hide AppendMany;
    var u := UpdateRetained(store, p);
    var (found, idxs) := Lookup(u, p.topic);
    assert found.logs == store.logs;
    forall j | 0 <= j < |store.logs|
      ensures DataExtends(store.logs[j], AppendMany(found.logs, idxs, p.(retain := false)).0[j])
    {
      AppendManyExtends(found.logs, idxs, p.(retain := false), j);
    }
  }

  lemma TrackAdds(st: State, id: ConnectionId, r: DataRequest)
    requires st.notes != []
    ensures Adds(st, Track(st.(notes := st.notes[1..]), id, r))
    ensures var tracked := Track(st.(notes := st.notes[1..]), id, r); tracked.notes == st.notes[1..]
  {
    hide StoreExtends, Promotes;
    StoreSelf(st.store);
    PromotesSelf(st.sess, st.ready);
    if id in st.sess {
      PromotesWith(st.sess, st.ready, id, st.sess[id].(reqs := st.sess[id].reqs + [r]));
    }
  }

  lemma {:induction false} DrainAdds(st: State)
    ensures Adds(st, Drain(st))
    decreases |st.notes|
  {
    hide Adds, Reschedule, Track;
    if st.notes != [] {
      var (id, r) := st.notes[0];
      var tracked := Track(st.(notes := st.notes[1..]), id, r);
      TrackAdds(st, id, r);
      if !tracked.panicked {
        var next := Reschedule(tracked, id, FreshData);
        RescheduleAdds(tracked, id, FreshData);
        RescheduleLeavesNotes(tracked, id, FreshData);
        DrainAdds(next);
        AddsOn(st, tracked, next);
        AddsOn(st, next, Drain(next));
      }
    } else {
      AddsSelf(st);
    }
  }

  lemma RescheduleLeavesNotes(st: State, id: ConnectionId, reason: ScheduleReason)
    ensures Reschedule(st, id, reason).notes == st.notes
  {
    hide InRange;
  }

  lemma NextNativeOffsetAdds(st: State, filter: Text)
    ensures Adds(st, st.(store := NextNativeOffset(st.store, filter).0))
  {
    hide Promotes;
    PromotesSelf(st.sess, st.ready);
  }

  lemma PrepareFilterAdds(st: State, id: ConnectionId, f: SubscribeFilter, idx: FilterIdx, cursor: Cursor)
    requires id in st.sess
    ensures Adds(st, PrepareFilter(st, id, f, idx, cursor))
  {
    hide Adds, Reschedule;
    var s := st.sess[id];
    var ids := if f.path in st.subMap then st.subMap[f.path] else {};
    var st1 := st.(subMap := st.subMap[f.path := ids + {id}]);
    SubMapAdds(st, st1.subMap);
    if f.path !in s.subs {
      var r := DataRequest(f.path, idx, f.qos, cursor, 0, true);
      var o := Origin(cursor.1, |st.store.accepted|, cursor.1, |s.out.sent|, true);
      var s1 := s.(subs := s.subs + {f.path}, origin := s.origin[f.path := o]);
      var st2 := With(st1, id, s1);
      var st3 := Track(st2, id, r);
      WithAdds(st1, id, s1);
      WithAdds(st2, id, s1.(reqs := s1.reqs + [r]));
      RescheduleAdds(st3, id, NewFilter);
      AddsOn(st, st1, st2);
      AddsOn(st, st2, st3);
      AddsOn(st, st3, Reschedule(st3, id, NewFilter));
    }
  }

  lemma SubMapAdds(st: State, subMap: map<Text, set<ConnectionId>>)
    ensures Adds(st, st.(subMap := subMap))
  {
    hide StoreExtends, Promotes;
    StoreSelf(st.store);
    PromotesSelf(st.sess, st.ready);
  }

  lemma PanicAdds(st: State)
    ensures Adds(st, Panic(st))
  {
    hide StoreExtends, Promotes;
    StoreSelf(st.store);
    PromotesSelf(st.sess, st.ready);
  }

  lemma {:induction false} SubscribeAllAdds(st: State, id: ConnectionId, fs: seq<SubscribeFilter>, codes: seq<QoS>)
    ensures Adds(st, SubscribeAll(st, id, fs, codes).0)
    decreases |fs|
  {
    hide Adds, PrepareFilter, NextNativeOffset;
    AddsSelf(st);
    PanicAdds(st);
    if fs != [] && id in st.sess && !SubscriptionRefused(fs[0]) {
      var (store, idx, cursor) := NextNativeOffset(st.store, fs[0].path);
      NextNativeOffsetAdds(st, fs[0].path);
      PrepareFilterAdds(st.(store := store), id, fs[0], idx, cursor);
      var next := PrepareFilter(st.(store := store), id, fs[0], idx, cursor);
      SubscribeAllAdds(next, id, fs[1..], codes + [fs[0].qos]);
      AddsOn(st, st.(store := store), next);
      AddsOn(st, next, SubscribeAll(next, id, fs[1..], codes + [fs[0].qos]).0);
    }
  }

  lemma RemoveWaiterExtends(store: Store, id: ConnectionId, filter: Text)
    ensures StoreExtends(store, RemoveWaiterOf(store, id, filter))
  {
    hide SwapRemove;
    SameHistories(store, RemoveWaiterOf(store, id, filter));
  }

  lemma UnsubscribeOneAdds(st: State, id: ConnectionId, pkid: PacketId, filter: Text)
    ensures Adds(st, UnsubscribeOne(st, id, pkid, filter).0)
  {
    hide StoreExtends, RemoveWaiterOf, Without, Promotes;
    StoreSelf(st.store);
    PromotesSelf(st.sess, st.ready);
    RemoveWaiterExtends(st.store, id, filter);
    if id in st.sess {
      var s := st.sess[id];
      PromotesWith(st.sess, st.ready, id, s.(subs := s.subs - {filter}, committed := s.committed + [UnsubAck(pkid)],
                                             reqs := Without(s.reqs, filter)));
    }
  }

  lemma {:induction false} UnsubscribeAllAdds(st: State, id: ConnectionId, pkid: PacketId, fs: seq<Text>, acked: bool)
    ensures Adds(st, UnsubscribeAll(st, id, pkid, fs, acked).0)
    decreases |fs|
  {
    hide Adds, UnsubscribeOne;
    if fs != [] {
      var (next, did) := UnsubscribeOne(st, id, pkid, fs[0]);
      UnsubscribeOneAdds(st, id, pkid, fs[0]);
      UnsubscribeAllAdds(next, id, pkid, fs[1..], acked || did);
      AddsOn(st, next, UnsubscribeAll(next, id, pkid, fs[1..], acked || did).0);
    } else {
      AddsSelf(st);
    }
  }

  lemma {:induction false} CleanLogsHistories(logs: seq<Data>, id: ConnectionId, j: nat)
    requires j < |logs|
    ensures CleanLogs(logs, id).0[j] == logs[j].(waiters := CleanLogs(logs, id).0[j].waiters)
  {
    hide RemoveWaiters;
    if j > 0 {
      CleanLogsHistories(logs[1..], id, j - 1);
    }
  }

  lemma DisconnectionAdds(st: State, id: ConnectionId)
    ensures Adds(st, HandleDisconnection(st, id))
  {
    hide CleanLogs;
    forall j | 0 <= j < |st.store.logs|
      ensures CleanLogs(st.store.logs, id).0[j] ==
              st.store.logs[j].(waiters := CleanLogs(st.store.logs, id).0[j].waiters)
    {
      CleanLogsHistories(st.store.logs, id, j);
    }
  }

  lemma ReplacedAdds(st: State, client: Text)
    ensures Adds(st, Replaced(st, client))
  {
    hide Adds, HandleDisconnection;
    AddsSelf(st);
    if client in st.byClient {
      DisconnectionAdds(st, st.byClient[client]);
    }
  }

  lemma AdmitLeaves(st: State, vacant: ConnectionId, s: Session, wills: map<Text, Publish>)
    ensures Leaves(st, Admit(st, vacant, s, wills))
  {
    hide StoreExtends, Promotes, Reschedule;
    StoreSelf(st.store);
    var st1 := With(st, vacant, s).(grave := st.grave - {s.client}, byClient := st.byClient[s.client := vacant],
        wills := wills);
    RescheduleAdds(st1, vacant, Init);
    assert Leaves(st, st1);
    LeavesOn(st, st1, Reschedule(st1, vacant, Init));
  }

  lemma LetInLeaves(st: State, vacant: ConnectionId, client: Text, clean: bool, will: Option<Publish>)
    ensures Leaves(st, LetIn(st, vacant, client, clean, will))
  {
    hide Leaves, Promotes, Admit, Let, WillsWith;
    AddsSelf(st);
    AdmitLeaves(st, vacant, Let(st, client, clean), WillsWith(st, client, will));
  }

  lemma ConnectionLeaves(st: State, vacant: ConnectionId, client: Text, clean: bool, will: Option<Publish>)
    requires vacant !in Replaced(st, client).sess
    ensures Leaves(st, HandleNewConnection(st, vacant, client, clean, will))
  {
    hide Leaves, Promotes, Replaced, LetIn;
    AddsSelf(st);
    ReplacedAdds(st, client);
    if ValidClientId(client) {
      LetInLeaves(Replaced(st, client), vacant, client, clean, will);
      LeavesOn(st, Replaced(st, client), HandleNewConnection(st, vacant, client, clean, will));
    }
  }

  // ---------------------------------------------------------------- packets

  lemma PublishedAdds(b: Batch, p: Publish, allowed: bool)
    ensures Adds(b.st, Published(b, p, allowed).st)
  {
    hide Adds, AppendToCommitlog;
    AddsSelf(b.st);
    AppendAdds(b.st, p);
  }

  lemma AcknowledgedAdds(b: Batch, id: ConnectionId, pkid: PacketId, rec: bool)
    requires id in b.st.sess
    ensures Adds(b.st, Acknowledged(b, id, pkid, rec).st)
  {
    hide Adds, RegisterAck, Reschedule, RegisterPubrec, With;
    var s := b.st.sess[id];
    var (out, ok) := RegisterAck(s.out, pkid);
    var s' := if !ok || !rec then s.(out := out)
              else s.(out := RegisterPubrec(out, pkid), committed := s.committed + [PubRel(pkid)]);
    var st := With(b.st, id, s');
    WithAdds(b.st, id, s');
    RescheduleAdds(st, id, IncomingAck);
    AddsOn(b.st, st, Reschedule(st, id, IncomingAck));
  }

  lemma PubRelAdds(b: Batch, id: ConnectionId, pkid: PacketId, allowed: bool)
    requires id in b.st.sess
    ensures Adds(b.st, OnPacket(b, id, PubRelPacket(pkid, allowed)).st)
  {
    hide Adds, AppendToCommitlog, Reschedule, Published, With;
    var s := b.st.sess[id];
    var committed := s.committed + [PubComp(pkid)];
    if s.recorded == [] {
      WithAdds(b.st, id, s.(committed := committed));
    } else {
      var s' := s.(committed := committed, recorded := s.recorded[1..]);
      var b0 := b.(st := With(b.st, id, s'));
      var b1 := Published(b0, s.recorded[0], allowed);
      WithAdds(b.st, id, s');
      PublishedAdds(b0, s.recorded[0], allowed);
      AddsOn(b.st, b0.st, b1.st);
      RescheduleAdds(b1.st, id, IncomingAck);
      AddsOn(b.st, b1.st, Reschedule(b1.st, id, IncomingAck));
    }
  }

  lemma CommitAdds(st: State, id: ConnectionId, ack: Ack)
    requires id in st.sess
    ensures Adds(st, Commit(st, id, ack))
  {
    hide Adds, With;
    WithAdds(st, id, st.sess[id].(committed := st.sess[id].committed + [ack]));
  }

  lemma PublishPacketAdds(b: Batch, id: ConnectionId, p: Publish, allowed: bool)
    requires id in b.st.sess
    ensures Adds(b.st, OnPacket(b, id, PublishPacket(p, allowed)).st)
  {
    hide Adds, Published, With, Commit;
    match p.qos
    case AtMostOnce => PublishedAdds(b, p, allowed);
    case AtLeastOnce =>
      var b1 := b.(st := Commit(b.st, id, PubAck(p.pkid)), forceAck := true);
      CommitAdds(b.st, id, PubAck(p.pkid));
      PublishedAdds(b1, p, allowed);
      AddsOn(b.st, b1.st, Published(b1, p, allowed).st);
    case ExactlyOnce =>
      var s := b.st.sess[id];
      WithAdds(b.st, id, s.(committed := s.committed + [PubRec(p.pkid)], recorded := s.recorded + [p]));
  }

  lemma SubscribePacketAdds(b: Batch, id: ConnectionId, pkid: PacketId, filters: seq<SubscribeFilter>)
    requires id in b.st.sess
    ensures Adds(b.st, OnPacket(b, id, SubscribePacket(pkid, filters)).st)
  {
    hide Adds, SubscribeAll, Commit;
    var (st, codes, refused) := SubscribeAll(b.st, id, filters, []);
    SubscribeAllAdds(b.st, id, filters, []);
    if id in st.sess {
      CommitAdds(st, id, SubAck(pkid, codes));
      AddsOn(b.st, st, Commit(st, id, SubAck(pkid, codes)));
    } else {
      PanicAdds(st);
      AddsOn(b.st, st, Panic(st));
    }
  }

  lemma PubCompAdds(b: Batch, id: ConnectionId, pkid: PacketId)
    requires id in b.st.sess
    ensures Adds(b.st, OnPacket(b, id, PubCompPacket(pkid)).st)
  {
    hide Adds, RegisterPubcomp, With;
    var s := b.st.sess[id];
    WithAdds(b.st, id, s.(out := RegisterPubcomp(s.out, pkid).0));
  }

  lemma PacketAdds(b: Batch, id: ConnectionId, packet: Packet)
    ensures Adds(b.st, OnPacket(b, id, packet).st)
  {
    hide Adds, SubscribeAll, UnsubscribeAll, Published, Acknowledged, RegisterPubcomp, Reschedule, Commit, With;
    AddsSelf(b.st);
    PanicAdds(b.st);
    if id in b.st.sess {
      match packet
      case PublishPacket(p, allowed) => PublishPacketAdds(b, id, p, allowed);
      case SubscribePacket(pkid, filters) => SubscribePacketAdds(b, id, pkid, filters);
      case UnsubscribePacket(pkid, filters) => UnsubscribeAllAdds(b.st, id, pkid, filters, false);
      case PubAckPacket(pkid) => AcknowledgedAdds(b, id, pkid, false);
      case PubRecPacket(pkid) => AcknowledgedAdds(b, id, pkid, true);
      case PubRelPacket(pkid, allowed) => PubRelAdds(b, id, pkid, allowed);
      case PubCompPacket(pkid) => PubCompAdds(b, id, pkid);
      case PingReqPacket => CommitAdds(b.st, id, PingResp);
      case DisconnectPacket => WillsAdds(b.st, b.st.wills - {b.st.sess[id].client});
      case OtherPacket =>
    }
  }

  lemma WillsAdds(st: State, wills: map<Text, Publish>)
    ensures Adds(st, st.(wills := wills))
  {
    hide StoreExtends, Promotes;
    StoreSelf(st.store);
    PromotesSelf(st.sess, st.ready);
  }

  lemma {:induction false} PacketsAdd(b: Batch, id: ConnectionId, ps: seq<Packet>)
    ensures Adds(b.st, OnPackets(b, id, ps).st)
    decreases |ps|
  {
    hide OnPacket, Adds;
    AddsSelf(b.st);
    if ps != [] && !b.stopped {
      var next := OnPacket(b, id, ps[0]);
      PacketAdds(b, id, ps[0]);
      PacketsAdd(next, id, ps[1..]);
      AddsOn(b.st, next.st, OnPackets(next, id, ps[1..]).st);
    }
  }

  lemma FinishAdds(b: Batch, id: ConnectionId)
    ensures Adds(b.st, FinishBatch(b, id))
  {
    hide Adds, Reschedule, Drain, HandleDisconnection;
    AddsSelf(b.st);
    RescheduleAdds(b.st, id, FreshData);
    var acked := if b.forceAck then Reschedule(b.st, id, FreshData) else b.st;
    AddsSelf(acked);
    DrainAdds(acked);
    var woken := if b.newData then Drain(acked) else acked;
    AddsOn(b.st, acked, woken);
    DisconnectionAdds(woken, id);
    AddsOn(b.st, woken, HandleDisconnection(woken, id));
  }

  lemma PayloadAdds(st: State, id: ConnectionId, packets: seq<Packet>)
    ensures Adds(st, HandleDevicePayload(st, id, packets))
  {
    hide Adds, OnPackets, FinishBatch;
    AddsSelf(st);
    if id in st.sess {
      var b := Batch(st, false, false, false, false);
      PacketsAdd(b, id, packets);
      FinishAdds(OnPackets(b, id, packets), id);
      AddsOn(st, OnPackets(b, id, packets).st, HandleDevicePayload(st, id, packets));
    }
  }

  lemma LastWillAdds(st: State, client: Text)
    ensures Adds(st, HandleLastWill(st, client))
  {
    hide Adds, AppendToCommitlog, Drain;
    AddsSelf(st);
    if client in st.wills {
      var a := st.(wills := st.wills - {client});
      var b := AppendToCommitlog(a, st.wills[client]);
      WillsAdds(st, a.wills);
      AppendAdds(a, st.wills[client]);
      DrainAdds(b);
      AddsOn(st, a, b);
      if !b.panicked {
        AddsOn(st, b, Drain(b));
      }
    }
  }

  /** Handling an event takes back nothing. */
  lemma EventAdds(st: State, id: ConnectionId, vacant: ConnectionId, e: Event)
    requires !e.Connect?
    ensures Adds(st, HandleEvent(st, id, vacant, e))
  {
    hide Adds, HandleDevicePayload, HandleLastWill, HandleDisconnection, Reschedule;
    match e
    case DeviceData(packets) => PayloadAdds(st, id, packets);
    case Disconnected => DisconnectionAdds(st, id);
    case LinkReady => RescheduleAdds(st, id, ReadyEvent);
    case PublishWill(client) => LastWillAdds(st, client);
  }

  lemma EventLeaves(st: State, id: ConnectionId, vacant: ConnectionId, e: Event)
    requires e.Connect? ==> vacant !in Replaced(st, e.client).sess
    ensures Leaves(st, HandleEvent(st, id, vacant, e))
  {
    hide Leaves, Promotes, HandleNewConnection;
    if e.Connect? {
      ConnectionLeaves(st, vacant, e.client, e.clean, e.will);
    } else {
      EventAdds(st, id, vacant, e);
    }
  }

  // ---------------------------------------------------------------- polling

  /** Reading for one request leaves the histories alone, and takes at most the polled connection,
      which is last, out of the ready queue. */
  lemma ConsumeOneLeaves(st: State, id: ConnectionId)
    ensures var (st', goOn) := ConsumeOne(st, id);
            && StoreExtends(st.store, st'.store) && st'.inbox == st.inbox
            && (st'.ready == st.ready || (!goOn && st.ready != [] && st'.ready == st.ready[..|st.ready| - 1]))
  {
    hide ForwardData, ForwardFails, StoreExtends, Park, Pause, InRange;
    StoreSelf(st.store);
    PauseLeaves(st, id, Caughtup);
    PauseLeavesInbox(st, id, Caughtup);
    if id in st.sess && st.sess[id].reqs != [] {
      var s := st.sess[id];
      var r := s.reqs[0];
      if r.filterIdx < |st.store.logs| && |s.out.inflight| <= MAX_INFLIGHT && !ForwardFails(s, r, st.store) {
        var (s', r', status) := ForwardData(s, r, st.store, st.cfg);
        var back := With(st, id, s'.(reqs := s.reqs[1..] + [r']));
        PauseLeaves(back, id, Busy);
        PauseLeaves(back, id, InflightFull);
        PauseLeavesInbox(back, id, Busy);
        PauseLeavesInbox(back, id, InflightFull);
        if status.FilterCaughtup? {
          ForwardKeepsIdx(s, r, st.store, st.cfg);
          ParkLeaves(With(st, id, s'.(reqs := s.reqs[1..])), id, r');
        }
      }
    }
  }

  lemma PauseLeaves(st: State, id: ConnectionId, reason: PauseReason)
    ensures StoreExtends(st.store, Pause(st, id, reason).store)
    ensures Pause(st, id, reason).ready == st.ready ||
            (st.ready != [] && Pause(st, id, reason).ready == st.ready[..|st.ready| - 1])
  {
    hide StoreExtends;
    StoreSelf(st.store);
    if st.ready != [] && st.ready[|st.ready| - 1] == id && id in st.sess {
      assert Pause(st, id, reason).ready == st.ready[..|st.ready| - 1];
    }
  }

  lemma PauseLeavesInbox(st: State, id: ConnectionId, reason: PauseReason)
    ensures Pause(st, id, reason).inbox == st.inbox
  {
  }

  lemma ForwardKeepsIdx(s: Session, r: DataRequest, store: Store, cfg: Config)
    requires r.filterIdx < |store.logs| && |s.out.inflight| <= MAX_INFLIGHT
    ensures ForwardData(s, r, store, cfg).1.filterIdx == r.filterIdx
  {
    hide ReadV, OwedRetained, Deliver;
  }

  lemma ParkLeaves(st: State, id: ConnectionId, r: DataRequest)
    requires r.filterIdx < |st.store.logs|
    ensures StoreExtends(st.store, Park(st, id, r).store)
    ensures Park(st, id, r).inbox == st.inbox && Park(st, id, r).ready == st.ready
  {
    SameHistories(st.store, Park(st, id, r).store);
  }

  lemma {:induction false} ConsumeLoopLeaves(st: State, id: ConnectionId, n: nat)
    ensures var st' := ConsumeLoop(st, id, n);
            && StoreExtends(st.store, st'.store) && st'.inbox == st.inbox
            && (st'.ready == st.ready || (st.ready != [] && st'.ready == st.ready[..|st.ready| - 1]))
    decreases n
  {
    hide ConsumeOne, StoreExtends;
    if n > 0 {
      ConsumeOneLeaves(st, id);
      var (next, goOn) := ConsumeOne(st, id);
      if goOn {
        ConsumeLoopLeaves(next, id, n - 1);
        StoreOn(st.store, next.store, ConsumeLoop(next, id, n - 1).store);
      }
    } else {
      StoreSelf(st.store);
    }
  }

  /** A poll takes the first of the ready queue, and puts it back last unless it pauses it. */
  lemma ConsumeLeaves(st: State)
    ensures StoreExtends(st.store, Consume(st).store) && Consume(st).inbox == st.inbox
    ensures st.ready != [] ==> Consume(st).ready == st.ready[1..] || Consume(st).ready == st.ready[1..] + [st.ready[0]]
  {
    hide ConsumeLoop, StoreExtends, AckDeviceData;
    StoreSelf(st.store);
    if st.ready != [] && st.ready[0] in st.sess {
      var id := st.ready[0];
      var polled := With(st.(ready := st.ready[1..] + [id]), id, AckDeviceData(st.sess[id]));
      ConsumeLoopLeaves(polled, id, MAX_SCHEDULE_ITERATIONS);
      assert polled.ready[..|polled.ready| - 1] == st.ready[1..];
    }
  }
}
