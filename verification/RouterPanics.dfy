/** When the router panics: what a caller can tell beforehand, and runs that lead there. */
module RouterPanics {
  import opened Basics
  import opened LogSpec
  import opened RouterTypes
  import opened StoreSpec
  import opened Topics
  import opened WindowSpec
  import opened RouterSpec
  import opened RouterInv
  import opened RouterSubscribe
  import opened RouterSessions
  import opened RouterBatch
  import opened RouterConsume
  import opened RouterOnward
  import opened RouterRun

  /** The event the router is about to handle asks to schedule a connection that is gone. */
  predicate ReadyTooLate(st: State, step: Step) {
    step.Handle? && st.inbox != [] && st.inbox[0].1.LinkReady? && st.inbox[0].0 !in st.sess
  }

  // ---------------------------------------------------------------- plain topics

  predicate PlainPacket(p: Packet) { p.PublishPacket? ==> !Unsliceable(p.publish.topic) }

  ghost predicate PlainPackets(ps: seq<Packet>) { forall k :: 0 <= k < |ps| ==> PlainPacket(ps[k]) }

  ghost predicate PlainRecorded(ps: seq<Publish>) { forall k :: 0 <= k < |ps| ==> !Unsliceable(ps[k].topic) }

  ghost predicate PlainEvent(st: State, id: ConnectionId, e: Event) {
    match e
    case DeviceData(packets) => PlainPackets(packets) && (id in st.sess ==> PlainRecorded(st.sess[id].recorded))
    case PublishWill(client) => client in st.wills ==> !Unsliceable(st.wills[client].topic)
    case _ => true
  }

  /** Every topic the step may have to compare, in the packets, among the recorded publishes of their
      connection, in the last will or among the retained messages, starts with a character of one byte. */
  ghost predicate PlainStep(st: State, step: Step) {
    match step
    case Handle(_) => st.inbox != [] ==> PlainEvent(st, st.inbox[0].0, st.inbox[0].1)
    case Poll => !RetainedFails(st.store.retained)
    case _ => true
  }

  lemma {:induction false} SubscribeAllRecorded(st: State, id: ConnectionId, fs: seq<SubscribeFilter>, codes: seq<QoS>)
    requires id in st.sess
    ensures var st' := SubscribeAll(st, id, fs, codes).0;
            id in st'.sess && st'.sess[id].recorded == st.sess[id].recorded
    decreases |fs|
  {
    hide NextNativeOffset, SubscriptionRefused, PrepareFilter;
    if fs != [] && !SubscriptionRefused(fs[0]) {
      var (store, idx, cursor) := NextNativeOffset(st.store, fs[0].path);
      PrepareFilterRecorded(st.(store := store), id, fs[0], idx, cursor);
      SubscribeAllRecorded(PrepareFilter(st.(store := store), id, fs[0], idx, cursor), id, fs[1..],
        codes + [fs[0].qos]);
    }
  }

  lemma PrepareFilterRecorded(st: State, id: ConnectionId, f: SubscribeFilter, idx: FilterIdx, cursor: Cursor)
    requires id in st.sess
    ensures var st' := PrepareFilter(st, id, f, idx, cursor);
            id in st'.sess && st'.sess[id].recorded == st.sess[id].recorded
  {
    if f.path !in st.sess[id].subs {
      PrepareFilterIs(st, id, f, idx, cursor);
    }
  }

  lemma {:induction false} UnsubscribeAllRecorded(st: State, id: ConnectionId, pkid: PacketId, fs: seq<Text>,
                                                  acked: bool)
    requires id in st.sess
    ensures var st' := UnsubscribeAll(st, id, pkid, fs, acked).0;
            id in st'.sess && st'.sess[id].recorded == st.sess[id].recorded
    decreases |fs|
  {
    hide RemoveWaiterOf, Without;
    if fs != [] {
      var (next, did) := UnsubscribeOne(st, id, pkid, fs[0]);
      UnsubscribeAllRecorded(next, id, pkid, fs[1..], acked || did);
    }
  }

  /** A session of the connection has recorded these publishes. */
  ghost predicate HasRecorded(st: State, id: ConnectionId, recorded: seq<Publish>) {
    id in st.sess && st.sess[id].recorded == recorded
  }

  lemma WithRecorded(st: State, id: ConnectionId, s: Session)
    ensures HasRecorded(With(st, id, s), id, s.recorded)
  {
    hide InRange;
  }

  lemma RescheduleRecorded(st: State, id: ConnectionId, reason: ScheduleReason, recorded: seq<Publish>)
    requires HasRecorded(st, id, recorded)
    ensures HasRecorded(Reschedule(st, id, reason), id, recorded)
  {
    hide InRange;
  }

  lemma AcknowledgedRecorded(b: Batch, id: ConnectionId, pkid: PacketId, rec: bool)
    requires id in b.st.sess
    ensures HasRecorded(Acknowledged(b, id, pkid, rec).st, id, b.st.sess[id].recorded)
  {
    hide RegisterAck, RegisterPubrec, Reschedule, With, HasRecorded;
    var s := b.st.sess[id];
    var (out, ok) := RegisterAck(s.out, pkid);
    var s' := if !ok || !rec then s.(out := out)
              else s.(out := RegisterPubrec(out, pkid), committed := s.committed + [PubRel(pkid)]);
    WithRecorded(b.st, id, s');
    RescheduleRecorded(With(b.st, id, s'), id, IncomingAck, s.recorded);
  }

  lemma PublishedRecorded(b: Batch, p: Publish, allowed: bool)
    ensures Published(b, p, allowed).st.sess == b.st.sess
  {
    hide AppendToCommitlog;
  }

  lemma PubRelRecorded(b: Batch, id: ConnectionId, pkid: PacketId, allowed: bool)
    requires id in b.st.sess
    ensures var recorded := b.st.sess[id].recorded;
            HasRecorded(OnPacket(b, id, PubRelPacket(pkid, allowed)).st, id,
                        if recorded == [] then [] else recorded[1..])
  {
    hide Published, Reschedule, With, InRange;
    var s := b.st.sess[id];
    WithRecorded(b.st, id, s.(committed := s.committed + [PubComp(pkid)]));
    if s.recorded != [] {
      var s' := s.(committed := s.committed + [PubComp(pkid)], recorded := s.recorded[1..]);
      var b1 := b.(st := With(b.st, id, s'));
      WithRecorded(b.st, id, s');
      PublishedRecorded(b1, s.recorded[0], allowed);
      RescheduleRecorded(Published(b1, s.recorded[0], allowed).st, id, IncomingAck, s.recorded[1..]);
    }
  }

  lemma PublishPacketRecorded(b: Batch, id: ConnectionId, p: Publish, allowed: bool)
    requires id in b.st.sess
    ensures HasRecorded(OnPacket(b, id, PublishPacket(p, allowed)).st, id,
                        if p.qos.ExactlyOnce? then b.st.sess[id].recorded + [p] else b.st.sess[id].recorded)
  {
    hide Published, With, InRange;
    var s := b.st.sess[id];
    match p.qos
    case AtMostOnce => PublishedRecorded(b, p, allowed);
    case AtLeastOnce =>
      WithRecorded(b.st, id, s.(committed := s.committed + [PubAck(p.pkid)]));
      PublishedRecorded(b.(st := Commit(b.st, id, PubAck(p.pkid)), forceAck := true), p, allowed);
    case ExactlyOnce =>
      WithRecorded(b.st, id, s.(committed := s.committed + [PubRec(p.pkid)], recorded := s.recorded + [p]));
  }

  /** Other packets record nothing. */
  lemma OtherPacketRecorded(b: Batch, id: ConnectionId, packet: Packet)
    requires id in b.st.sess && !packet.PublishPacket? && !packet.PubRelPacket?
    ensures HasRecorded(OnPacket(b, id, packet).st, id, b.st.sess[id].recorded)
  {
    hide Acknowledged, SubscribeAll, UnsubscribeAll, RegisterPubcomp, With, InRange;
    var s := b.st.sess[id];
    match packet
    case SubscribePacket(pkid, filters) =>
      SubscribeAllRecorded(b.st, id, filters, []);
      var (st, codes, refused) := SubscribeAll(b.st, id, filters, []);
      WithRecorded(st, id, st.sess[id].(committed := st.sess[id].committed + [SubAck(pkid, codes)]));
    case UnsubscribePacket(pkid, filters) => UnsubscribeAllRecorded(b.st, id, pkid, filters, false);
    case PubAckPacket(pkid) => AcknowledgedRecorded(b, id, pkid, false);
    case PubRecPacket(pkid) => AcknowledgedRecorded(b, id, pkid, true);
    case PubCompPacket(pkid) => WithRecorded(b.st, id, s.(out := RegisterPubcomp(s.out, pkid).0));
    case PingReqPacket => WithRecorded(b.st, id, s.(committed := s.committed + [PingResp]));
    case _ =>
  }

  /** What is recorded was sent by the device. */
  lemma RecordedStaysPlain(b: Batch, id: ConnectionId, packet: Packet)
    requires id in b.st.sess && PlainRecorded(b.st.sess[id].recorded) && PlainPacket(packet)
    ensures var st := OnPacket(b, id, packet).st; id in st.sess && PlainRecorded(st.sess[id].recorded)
  {
    hide OnPacket, Unsliceable;
    match packet
    case PublishPacket(p, allowed) => PublishPacketRecorded(b, id, p, allowed);
    case PubRelPacket(pkid, allowed) => PubRelRecorded(b, id, pkid, allowed);
    case _ => OtherPacketRecorded(b, id, packet);
  }

  lemma PlainPacketPasses(b: Batch, id: ConnectionId, packet: Packet)
    requires id in b.st.sess ==> PlainRecorded(b.st.sess[id].recorded)
    requires PlainPacket(packet)
    ensures !PacketFails(b, id, packet)
  {
  }

  lemma {:induction false} PlainBatchPasses(b: Batch, id: ConnectionId, ps: seq<Packet>)
    requires id in b.st.sess && PlainRecorded(b.st.sess[id].recorded) && PlainPackets(ps)
    ensures !BatchFails(b, id, ps)
    decreases |ps|
  {
    hide OnPacket, PacketFails, PlainPacket, PlainRecorded;
    if ps != [] && !b.stopped {
      PlainPacketPasses(b, id, ps[0]);
      RecordedStaysPlain(b, id, ps[0]);
      PlainBatchPasses(OnPacket(b, id, ps[0]), id, ps[1..]);
    }
  }

  lemma PauseRetained(st: State, id: ConnectionId, reason: PauseReason)
    ensures Pause(st, id, reason).store == st.store
  {
    hide InRange;
  }

  lemma ParkRetained(st: State, id: ConnectionId, r: DataRequest)
    requires r.filterIdx < |st.store.logs|
    ensures Park(st, id, r).store.retained == st.store.retained
  {
    hide InRange;
  }

  lemma SameRetained(st: State, id: ConnectionId)
    ensures ConsumeOne(st, id).0.store.retained == st.store.retained
  {
    hide ForwardData, ForwardFails, Pause, Park, With, InRange;
    PauseRetained(st, id, Caughtup);
    if id in st.sess && st.sess[id].reqs != [] {
      var s, r := st.sess[id], st.sess[id].reqs[0];
      if r.filterIdx < |st.store.logs| && |s.out.inflight| <= MAX_INFLIGHT && !ForwardFails(s, r, st.store) {
        var (s', r', status) := ForwardData(s, r, st.store, st.cfg);
        var b, parked := s'.(reqs := s.reqs[1..] + [r']), s'.(reqs := s.reqs[1..]);
        WithStore(st, id, b);
        WithStore(st, id, parked);
        PauseRetained(With(st, id, b), id, Busy);
        PauseRetained(With(st, id, b), id, InflightFull);
        if status.FilterCaughtup? {
          ForwardKeepsIdx(s, r, st.store, st.cfg);
          ParkRetained(With(st, id, parked), id, r');
        }
      }
    }
  }

  lemma WithStore(st: State, id: ConnectionId, s: Session)
    ensures With(st, id, s).store == st.store
  {
    hide InRange;
  }

  lemma {:induction false} PlainLoopPasses(st: State, id: ConnectionId, n: nat)
    requires !RetainedFails(st.store.retained)
    ensures !LoopFails(st, id, n)
    decreases n
  {
    hide ConsumeOne, RetainedFails;
    if n > 0 {
      SameRetained(st, id);
      if ConsumeOne(st, id).1 {
        PlainLoopPasses(ConsumeOne(st, id).0, id, n - 1);
      }
    }
  }

  /** If the topics are plain, a step makes the router panic exactly if it handles a Ready event whose
      connection is gone. */
  lemma PlainPanicsExactly(st: State, step: Step)
    requires Good(st) && Enabled(st, step) && StepInScope(step) && PlainStep(st, step)
    ensures Do(st, step).panicked <==> ReadyTooLate(st, step)
  {
    hide Good, Do, Enabled, StepInScope, BatchFails, LoopFails, PlainPackets, PlainRecorded, RetainedFails;
    PanicsExactly(st, step);
    if step.Handle? && st.inbox != [] {
      var (id, e) := st.inbox[0];
      if e.DeviceData? && id in st.sess {
        PlainBatchPasses(Begun(st), id, e.packets);
      }
    } else if step.Poll? && st.ready != [] && st.ready[0] in st.sess {
      PlainLoopPasses(PollStart(st), st.ready[0], MAX_SCHEDULE_ITERATIONS);
    }
  }
}
