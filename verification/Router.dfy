/** The router, in place.  Its five slabs are kept in step by the source and share their keys, so they
    are one map here; an entry is borrowed into an object of its class and put back. */
module Routers {
  import opened Basics
  import opened LogSpec
  import opened RouterTypes
  import opened StoreSpec
  import opened WindowSpec
  import opened RouterSpec
  import opened DataLogs
  import opened OutgoingBuffers

  class Router {
    var sess: map<ConnectionId, Session>
    var readyqueue: seq<ConnectionId>
    const datalog: DataLog
    var notifications: seq<Waiter>
    var graveyard: map<Text, Saved>
    var connectionMap: map<Text, ConnectionId>
    var subscriptionMap: map<Text, set<ConnectionId>>
    var lastWills: map<Text, Publish>
    /** The channel of events to the router. */
    var events: seq<(ConnectionId, Event)>
    const config: Config
    /** Set where the source panics. */
    var panicked: bool

    constructor (config: Config, maxSegmentSize: nat, maxSegmentCount: nat)
      requires maxSegmentSize >= 1024 && maxSegmentCount >= 1
      ensures Valid() && View() == Initial(maxSegmentSize, maxSegmentCount, config)
    {
      sess, readyqueue, notifications, graveyard, connectionMap := map[], [], [], map[], map[];
      subscriptionMap, lastWills, events, panicked := map[], map[], [], false;
      this.config := config;
      datalog := new DataLog(maxSegmentSize, maxSegmentCount);
    }

    ghost predicate Valid()
      reads this, datalog
    {
      datalog.Valid()
    }

    ghost function View(): State
      reads this, datalog
      requires Valid()
    {
      State(sess, readyqueue, datalog.View(), notifications, graveyard, connectionMap, subscriptionMap, lastWills,
            events, config, panicked)
    }

    // ---------------------------------------------------------------- scheduler

    method Track(id: ConnectionId, request: DataRequest)
      requires Valid()
      modifies this`sess, this`panicked
      ensures View() == RouterSpec.Track(old(View()), id, request)
    {
      if id !in sess {
        panicked := true;
        return;
      }
      sess := sess[id := sess[id].(reqs := sess[id].reqs + [request])];
    }

    method Reschedule(id: ConnectionId, reason: ScheduleReason)
      requires Valid()
      modifies this`sess, this`readyqueue, this`panicked
      ensures View() == RouterSpec.Reschedule(old(View()), id, reason)
    {
      if id !in sess {
        panicked := true;
        return;
      }
      var s := sess[id];
      if s.status.Paused? && TryReady(s.status, reason).Ready? {
        sess := sess[id := s.(status := Ready)];
        readyqueue := readyqueue + [id];
      }
    }

    method Pause(id: ConnectionId, reason: PauseReason)
      requires Valid()
      modifies this`sess, this`readyqueue, this`panicked
      ensures View() == RouterSpec.Pause(old(View()), id, reason)
    {
      if readyqueue == [] || readyqueue[|readyqueue| - 1] != id || id !in sess {
        panicked := true;
        return;
      }
      readyqueue := readyqueue[..|readyqueue| - 1];
      sess := sess[id := sess[id].(status := Paused(reason))];
    }

    /** The first of the ready queue, which is put back last; nothing if it is gone. */
    method Poll() returns (polled: Option<ConnectionId>)
      requires Valid()
      modifies this`readyqueue
      ensures polled.Some? <==> old(readyqueue) != [] && old(readyqueue)[0] in sess
      ensures polled.Some? ==> polled.value == old(readyqueue)[0] && readyqueue == old(readyqueue)[1..] + [polled.value]
      ensures polled.None? ==> readyqueue == if old(readyqueue) == [] then [] else old(readyqueue)[1..]
    {
      if readyqueue == [] {
        return None;
      }
      var id := readyqueue[0];
      readyqueue := readyqueue[1..];
      if id !in sess {
        return None;
      }
      readyqueue := readyqueue + [id];
      polled := Some(id);
    }

    // ---------------------------------------------------------------- waking

    /** Hands all woken requests back to their connections. */
    method DrainNotifications()
      requires Valid()
      modifies this`sess, this`readyqueue, this`notifications, this`panicked
      ensures View() == Drain(old(View()))
    {
      while notifications != []
        invariant Valid() && Drain(old(View())) == Drain(View())
        decreases |notifications|
      {
        hide TryReady;
        ghost var before := View();
        var (id, request) := notifications[0];
        notifications := notifications[1..];
        Track(id, request);
        if panicked {
          return;
        }
        Reschedule(id, FreshData);
      }
    }

    /** Sends all pending acknowledgements of a connection to its link. */
    method SendAcks(id: ConnectionId)
      requires Valid() && id in sess
      modifies this`sess
      ensures View() == With(old(View()), id, AckDeviceData(old(sess)[id]))
    {
      var s := sess[id];
      if s.committed == [] {
        assert sess == sess[id := s];
        return;
      }
      var outgoing := new Outgoing.Of(s.out, s.wire);
      var k := 0;
      while k < |s.committed|
        invariant sess == old(sess)
        invariant k <= |s.committed| && outgoing.lastPkid < MAX_INFLIGHT && outgoing.Window() == s.out
        invariant outgoing.WireNow() == PushNotes(s.wire, AckNotes(s.committed)[..k])
      {
        var len := outgoing.PushNotification(DeviceAck(s.committed[k]));
        assert AckNotes(s.committed)[..k + 1] == AckNotes(s.committed)[..k] + [DeviceAck(s.committed[k])];
        k := k + 1;
      }
      assert AckNotes(s.committed)[..k] == AckNotes(s.committed);
      outgoing.TryWake();
      var s' := s.(wire := outgoing.WireNow(), committed := []);
      assert s' == AckDeviceData(s);
      sess := sess[id := s'];
    }

    // ---------------------------------------------------------------- forwarding

    /** Retained messages as forwards, as many as fit; nothing if reading them panics. */
    method RetainedFirst(request: DataRequest, slots: nat) returns (publishes: Option<seq<Forward>>)
      requires Valid()
      ensures publishes.None? <==> request.forwardRetained && RetainedFails(datalog.retainedPublishes)
      ensures publishes.Some? ==> |publishes.value| <= slots
      ensures publishes.Some? ==>
                publishes.value ==
                RetainedForwards(OwedRetained(datalog.View(), request, slots), request.filterIdx, request.qos)
    {
      if !request.forwardRetained {
        return Some([]);
      }
      var read := datalog.ReadRetainedMessages(request.filter);
      if read.None? {
        return None;
      }
      var retained := Take(read.value, slots);
      publishes := Some(RetainedForwards(retained, request.filterIdx, request.qos));
    }

    /** Reads for one request, and says what is left to do for it, or that it has panicked. */
    method ForwardDeviceData(id: ConnectionId, request: DataRequest)
      returns (request': DataRequest, status: Option<ConsumeStatus>)
      requires Valid() && id in sess && request.filterIdx < |datalog.native| && |sess[id].out.inflight| <= MAX_INFLIGHT
      modifies this`sess
      ensures status.None? <==> ForwardFails(old(sess)[id], request, datalog.View())
      ensures status.None? ==> sess == old(sess)
      ensures status.Some? ==>
                var (s', r', answer) := ForwardData(old(sess)[id], request, datalog.View(), config);
                sess == old(sess)[id := s'] && request' == r' && status.value == answer
    {
      hide ReadV, Deliver, StoreSpec.InRange, MissedBy, OwedRetained, RetainedForwards, LogForwards, Noted,
           RetainedFails;
      var s := sess[id];
      assert sess[id := s] == sess;
      request' := request;
      var slots := config.maxOutgoing;
      if !request.qos.AtMostOnce? {
        slots := MAX_INFLIGHT - |s.out.inflight|;
        if slots == 0 {
          return request, Some(WindowFull);
        }
      }
      var retained := RetainedFirst(request, slots);
      if retained.None? {
        return request, None;
      }
      var publishes := retained.value;
      var position, items := datalog.NativeReadv(request.filterIdx, request.cursor, slots - |publishes|);
      publishes := publishes + LogForwards(items, request.filterIdx, request.qos);
      request' := request.(readCount := request.readCount + |publishes|, cursor := position.end,
                               forwardRetained := false);
      sess := sess[id := Noted(s, MissedBy(request, datalog.native[request.filterIdx].log))];
      if publishes == [] {
        return request', Some(FilterCaughtup);
      }
      var full := Send(id, publishes, request.qos);
      status := Some(if full then BufferFull else if position.Done? then FilterCaughtup else PartialRead);
    }

    /** Pushes forwards to the buffer of a link, and asks it to be unscheduled if the buffer is full. */
    method Send(id: ConnectionId, publishes: seq<Forward>, qos: QoS) returns (full: bool)
      requires id in sess
      modifies this`sess
      ensures sess == old(sess)[id := Deliver(old(sess)[id], publishes, qos).0]
              && full == Deliver(old(sess)[id], publishes, qos).1
    {
      var s := sess[id];
      var outgoing := new Outgoing.Of(s.out, s.wire);
      ghost var forwards := PushForwards(s.out, publishes, qos).1;
      var len, inflight := outgoing.PushForwards(publishes, qos);
      full := len >= MAX_CHANNEL_CAPACITY - 1;
      if full {
        var more := outgoing.PushNotification(Unschedule);
        PushedTwice(s.wire, ForwardNotes(forwards), [Unschedule]);
      }
      assert ForwardNotes(forwards) + [] == ForwardNotes(forwards);
      outgoing.TryWake();
      sess := sess[id := s.(out := outgoing.Window(), wire := outgoing.WireNow())];
    }

    // ---------------------------------------------------------------- consuming

    /** Polls the ready queue once; answers whether there was a connection to poll. */
    method Consume() returns (some: bool)
      requires Valid()
      modifies this, datalog
      ensures Valid() && View() == RouterSpec.Consume(old(View()))
      ensures some <==> old(readyqueue) != [] && old(readyqueue)[0] in old(sess)
    {
      var polled := Poll();
      if polled.None? {
        return false;
      }
      var id := polled.value;
      SendAcks(id);
      ConsumeRequests(id);
      some := true;
    }

    method ConsumeRequests(id: ConnectionId)
      requires Valid()
      modifies this, datalog
      ensures Valid() && View() == ConsumeLoop(old(View()), id, MAX_SCHEDULE_ITERATIONS)
    {
      hide ConsumeOne, InRange;
      var left, goOn := MAX_SCHEDULE_ITERATIONS, true;
      while left > 0 && goOn
        invariant Valid()
        invariant ConsumeLoop(old(View()), id, MAX_SCHEDULE_ITERATIONS) ==
                  if goOn then ConsumeLoop(View(), id, left) else View()
        decreases left
      {
        ghost var before := View();
        goOn := ConsumeNext(id);
        LoopStep(before, id, left);
        left := left - 1;
      }
    }

    method ConsumeNext(id: ConnectionId) returns (goOn: bool)
      requires Valid()
      modifies this, datalog
      ensures Valid() && (View(), goOn) == ConsumeOne(old(View()), id)
    {
      hide ForwardData, ForwardFails, RouterSpec.Pause;
      if id !in sess {
        panicked := true;
        return false;
      }
      var s := sess[id];
      if s.reqs == [] {
        Pause(id, Caughtup);
        return false;
      }
      var request := s.reqs[0];
      if request.filterIdx >= |datalog.native| || |s.out.inflight| > MAX_INFLIGHT {
        panicked := true;
        return false;
      }
      var request', answer := ForwardDeviceData(id, request);
      if answer.None? {
        panicked := true;
        return false;
      }
      var status := answer.value;
      assert request'.filterIdx == request.filterIdx by { KeepsFilter(s, request, datalog.View(), config); }
      goOn := status.FilterCaughtup? || status.PartialRead?;
      ghost var s' := sess[id];
      if status.FilterCaughtup? {
        sess := sess[id := sess[id].(reqs := s.reqs[1..])];
        assert sess == old(sess)[id := s'.(reqs := s.reqs[1..])];
        datalog.Park(id, request');
      } else {
        sess := sess[id := sess[id].(reqs := s.reqs[1..] + [request'])];
        assert sess == old(sess)[id := s'.(reqs := s.reqs[1..] + [request'])];
        if status.BufferFull? {
          Pause(id, Busy);
        } else if status.WindowFull? {
          Pause(id, InflightFull);
        }
      }
    }

    // ---------------------------------------------------------------- publishing and subscribing

    method AppendToCommitlog(publish: Publish)
      requires Valid()
      modifies this`notifications, this`panicked, datalog
      ensures Valid() && View() == RouterSpec.AppendToCommitlog(old(View()), publish)
    {
      hide StoreSpec.Accept, UpdateRetained, LookupFails;
      var woken := datalog.Accept(publish);
      if woken.None? {
        panicked := true;
        return;
      }
      notifications := notifications + woken.value;
    }

    method PrepareFilter(id: ConnectionId, filter: SubscribeFilter, idx: FilterIdx, cursor: Cursor)
      requires Valid() && id in sess
      modifies this`sess, this`readyqueue, this`subscriptionMap, this`panicked
      ensures View() == RouterSpec.PrepareFilter(old(View()), id, filter, idx, cursor)
    {
      var ids := if filter.path in subscriptionMap then subscriptionMap[filter.path] else {};
      subscriptionMap := subscriptionMap[filter.path := ids + {id}];
      var s := sess[id];
      if filter.path !in s.subs {
        var request := DataRequest(filter.path, idx, filter.qos, cursor, 0, true);
        var origin := Origin(cursor.1, |datalog.accepted|, cursor.1, |s.out.sent|, true);
        sess := sess[id := s.(subs := s.subs + {filter.path}, origin := s.origin[filter.path := origin])];
        Track(id, request);
        Reschedule(id, NewFilter);
      }
    }

    /** Subscribes to the filters of one packet, up to the first that is refused. */
    method Subscribe(id: ConnectionId, filters: seq<SubscribeFilter>) returns (codes: seq<QoS>, refused: bool)
      requires Valid()
      modifies this, datalog
      ensures Valid() && (View(), codes, refused) == SubscribeAll(old(View()), id, filters, [])
    {
      hide StoreSpec.NextNativeOffset, SubscriptionRefused;
      codes, refused := [], false;
      var k := 0;
      assert filters[0..] == filters;
      while k < |filters|
        invariant Valid() && k <= |filters|
        invariant SubscribeAll(old(View()), id, filters, []) == SubscribeAll(View(), id, filters[k..], codes)
      {
        var f := filters[k];
        assert filters[k..][1..] == filters[k + 1..];
        if id !in sess {
          panicked := true;
          return codes, true;
        }
        if SubscriptionRefused(f) {
          return codes, true;
        }
        var idx, cursor := datalog.NextNativeOffset(f.path);
        PrepareFilter(id, f, idx, cursor);
        codes := codes + [f.qos];
        k := k + 1;
      }
    }

    /** Takes back one subscription, if the subscription map knows it; answers whether it acknowledged. */
    method UnsubscribeFrom(id: ConnectionId, pkid: PacketId, filter: Text) returns (acked: bool)
      requires Valid()
      modifies this, datalog
      ensures Valid() && (View(), acked) == UnsubscribeOne(old(View()), id, pkid, filter)
    {
      hide RemoveWaiterOf;
      if id !in sess {
        panicked := true;
        return false;
      }
      if filter !in subscriptionMap || id !in subscriptionMap[filter] {
        return false;
      }
      subscriptionMap := subscriptionMap[filter := subscriptionMap[filter] - {id}];
      var s := sess[id];
      if filter !in s.subs {
        return false;
      }
      var reqs := Retain(s.reqs, filter);
      sess := sess[id := s.(subs := s.subs - {filter}, committed := s.committed + [UnsubAck(pkid)], reqs := reqs)];
      var removed := datalog.RemoveWaitersForId(id, filter);
      acked := true;
    }

    method Unsubscribe(id: ConnectionId, pkid: PacketId, filters: seq<Text>) returns (acked: bool)
      requires Valid()
      modifies this, datalog
      ensures Valid() && (View(), acked) == UnsubscribeAll(old(View()), id, pkid, filters, false)
    {
      hide UnsubscribeOne;
      acked := false;
      var k := 0;
      assert filters[0..] == filters;
      while k < |filters|
        invariant Valid() && k <= |filters|
        invariant UnsubscribeAll(old(View()), id, pkid, filters, false) ==
                  UnsubscribeAll(View(), id, pkid, filters[k..], acked)
      {
        assert filters[k..][1..] == filters[k + 1..];
        var did := UnsubscribeFrom(id, pkid, filters[k]);
        acked := acked || did;
        k := k + 1;
      }
    }

    // ---------------------------------------------------------------- packets

    /** What a batch has come to: the state of the router and the flags of the handler. */
    ghost function Now(forceAck: bool, newData: bool, disconnect: bool, stopped: bool): Batch
      reads this, datalog
      requires Valid()
    {
      Batch(View(), forceAck, newData, disconnect, stopped)
    }

    method CommitAck(id: ConnectionId, ack: Ack)
      requires Valid() && id in sess
      modifies this`sess
      ensures View() == Commit(old(View()), id, ack)
    {
      sess := sess[id := sess[id].(committed := sess[id].committed + [ack])];
    }

    /** Keeps a QoS 2 publish until it is released. */
    method Record(id: ConnectionId, p: Publish)
      requires Valid() && id in sess
      modifies this`sess
      ensures View() == With(old(View()), id, old(sess)[id].(committed := old(sess)[id].committed + [PubRec(p.pkid)],
                                                             recorded := old(sess)[id].recorded + [p]))
    {
      var s := sess[id];
      sess := sess[id := s.(committed := s.committed + [PubRec(p.pkid)], recorded := s.recorded + [p])];
    }

    /** An acknowledgement that is not for the oldest entry ends the batch. */
    method OnAck(id: ConnectionId, pkid: PacketId, rec: bool, ghost b: Batch) returns (stop: bool)
      requires Valid() && id in sess && b.st == View()
      modifies this`sess, this`readyqueue, this`panicked
      ensures Now(b.forceAck, b.newData, b.disconnect || stop, b.stopped || stop) == Acknowledged(b, id, pkid, rec)
    {
      hide WindowSpec.RegisterAck, RouterSpec.Reschedule;
      var ok := TakeAck(id, pkid, rec);
      if ok {
        Reschedule(id, IncomingAck);
      }
      stop := !ok;
    }

    method TakeAck(id: ConnectionId, pkid: PacketId, rec: bool) returns (ok: bool)
      requires Valid() && id in sess
      modifies this`sess
      ensures var s := old(sess)[id];
              var (out, good) := WindowSpec.RegisterAck(s.out, pkid);
              && ok == good
              && View() == With(old(View()), id,
                   if ok && rec then
                     s.(out := WindowSpec.RegisterPubrec(out, pkid), committed := s.committed + [PubRel(pkid)])
                   else s.(out := out))
    {
      hide WindowSpec.RegisterAck, WindowSpec.RegisterPubrec;
      var s := sess[id];
      var outgoing := new Outgoing.Of(s.out, s.wire);
      ok := outgoing.RegisterAck(pkid);
      if ok && rec {
        outgoing.RegisterPubrec(pkid);
        s := s.(committed := s.committed + [PubRel(pkid)]);
      }
      sess := sess[id := s.(out := outgoing.Window())];
    }

    method OnPublish(id: ConnectionId, p: Publish, allowed: bool, ghost b: Batch)
      returns (forceAck: bool, newData: bool, stop: bool)
      requires Valid() && id in sess && b.st == View()
      modifies this, datalog
      ensures Valid()
      ensures Now(b.forceAck || forceAck, b.newData || newData, b.disconnect || stop, b.stopped || stop)
              == OnPacket(b, id, PublishPacket(p, allowed))
    {
      hide RouterSpec.AppendToCommitlog;
      forceAck, newData, stop := false, false, false;
      match p.qos {
        case AtMostOnce =>
        case AtLeastOnce =>
          CommitAck(id, PubAck(p.pkid));
          forceAck := true;
        case ExactlyOnce =>
          Record(id, p);
          return true, false, false;
      }
      if !allowed {
        return forceAck, false, true;
      }
      AppendToCommitlog(p);
      newData, stop := !panicked, panicked;
    }

    method OnPubRel(id: ConnectionId, pkid: PacketId, allowed: bool, ghost b: Batch) returns (newData: bool, stop: bool)
      requires Valid() && id in sess && b.st == View()
      modifies this, datalog
      ensures Valid()
      ensures Now(b.forceAck, b.newData || newData, b.disconnect || stop, b.stopped || stop)
              == OnPacket(b, id, PubRelPacket(pkid, allowed))
    {
      hide RouterSpec.AppendToCommitlog, RouterSpec.Reschedule;
      newData, stop := false, false;
      var s := sess[id];
      Release(id, pkid);
      if s.recorded == [] || !allowed {
        return false, true;
      }
      AppendToCommitlog(s.recorded[0]);
      if panicked {
        return false, true;
      }
      newData := true;
      Reschedule(id, IncomingAck);
    }

    /** Completes the oldest of the recorded publishes. */
    method Release(id: ConnectionId, pkid: PacketId)
      requires Valid() && id in sess
      modifies this`sess
      ensures var s := old(sess)[id];
              View() == With(old(View()), id,
                s.(committed := s.committed + [PubComp(pkid)],
                   recorded := if s.recorded == [] then [] else s.recorded[1..]))
    {
      var s := sess[id];
      sess := sess[id := s.(committed := s.committed + [PubComp(pkid)],
                            recorded := if s.recorded == [] then [] else s.recorded[1..])];
    }

    method OnPubComp(id: ConnectionId, pkid: PacketId, ghost b: Batch) returns (stop: bool)
      requires Valid() && id in sess && b.st == View()
      modifies this`sess
      ensures Now(b.forceAck, b.newData, b.disconnect || stop, b.stopped || stop) ==
              OnPacket(b, id, PubCompPacket(pkid))
    {
      var s := sess[id];
      var outgoing := new Outgoing.Of(s.out, s.wire);
      var ok := outgoing.RegisterPubcomp(pkid);
      sess := sess[id := s.(out := outgoing.Window())];
      stop := !ok;
    }

    method OnSubscribe(id: ConnectionId, pkid: PacketId, filters: seq<SubscribeFilter>, ghost b: Batch)
      returns (forceAck: bool, disconnect: bool, stop: bool)
      requires Valid() && id in sess && b.st == View()
      modifies this, datalog
      ensures Valid()
      ensures Now(b.forceAck || forceAck, b.newData, b.disconnect || disconnect, b.stopped || stop)
              == OnPacket(b, id, SubscribePacket(pkid, filters))
    {
      hide SubscribeAll;
      var codes, refused := Subscribe(id, filters);
      if id !in sess {
        panicked := true;
        return false, true, true;
      }
      CommitAck(id, SubAck(pkid, codes));
      forceAck, disconnect, stop := true, refused, false;
    }

    method OnUnsubscribe(id: ConnectionId, pkid: PacketId, filters: seq<Text>, ghost b: Batch) returns (forceAck: bool)
      requires Valid() && id in sess && b.st == View()
      modifies this, datalog
      ensures Valid()
      ensures Now(b.forceAck || forceAck, b.newData, b.disconnect, b.stopped) ==
              OnPacket(b, id, UnsubscribePacket(pkid, filters))
    {
      hide UnsubscribeAll;
      forceAck := Unsubscribe(id, pkid, filters);
    }

    /** The packets that only concern the connection itself. */
    method HandleSmallPacket(id: ConnectionId, packet: Packet, ghost b: Batch) returns (forceAck: bool, stop: bool)
      requires Valid() && id in sess && b.st == View()
      requires packet.PubAckPacket? || packet.PubRecPacket? || packet.PubCompPacket? || packet.PingReqPacket?
               || packet.DisconnectPacket? || packet.OtherPacket?
      modifies this`sess, this`readyqueue, this`panicked, this`lastWills
      ensures Now(b.forceAck || forceAck, b.newData, b.disconnect || stop, b.stopped || stop) == OnPacket(b, id, packet)
    {
      hide Acknowledged, WindowSpec.RegisterPubcomp, Commit;
      forceAck, stop := false, false;
      match packet
      case PubAckPacket(pkid) => stop := OnAck(id, pkid, false, b);
      case PubRecPacket(pkid) => stop := OnAck(id, pkid, true, b);
      case PubCompPacket(pkid) => stop := OnPubComp(id, pkid, b);
      case PingReqPacket =>
        CommitAck(id, PingResp);
        forceAck := true;
      case DisconnectPacket =>
        lastWills := lastWills - {sess[id].client};
        stop := true;
      case OtherPacket =>
    }

    /** Handles one packet; answers which flags of the batch it raises. */
    method HandlePacket(id: ConnectionId, packet: Packet, ghost b: Batch)
      returns (forceAck: bool, newData: bool, disconnect: bool, stop: bool)
      requires Valid() && b.st == View()
      modifies this, datalog
      ensures Valid()
      ensures Now(b.forceAck || forceAck, b.newData || newData, b.disconnect || disconnect, b.stopped || stop)
              == OnPacket(b, id, packet)
    {
      hide OnPacket;
      if id !in sess {
        panicked := true;
        GonePacket(b, id, packet);
        return false, false, true, true;
      }
      forceAck, newData, disconnect, stop := false, false, false, false;
      match packet
      case PublishPacket(p, allowed) =>
        forceAck, newData, stop := OnPublish(id, p, allowed, b);
        disconnect := stop;
      case SubscribePacket(pkid, filters) => forceAck, disconnect, stop := OnSubscribe(id, pkid, filters, b);
      case UnsubscribePacket(pkid, filters) => forceAck := OnUnsubscribe(id, pkid, filters, b);
      case PubRelPacket(pkid, allowed) =>
        newData, stop := OnPubRel(id, pkid, allowed, b);
        disconnect := stop;
      case _ =>
        forceAck, stop := HandleSmallPacket(id, packet, b);
        disconnect := stop;
    }

    /** Handles the packets of a device in order, up to one that ends the batch; then acts on the flags. */
    method HandleDevicePayload(id: ConnectionId, packets: seq<Packet>)
      requires Valid()
      modifies this, datalog
      ensures Valid() && View() == RouterSpec.HandleDevicePayload(old(View()), id, packets)
    {
      hide OnPacket, Drain, RouterSpec.Reschedule, RouterSpec.HandleDisconnection;
      if id !in sess {
        return;
      }
      var forceAck, newData, disconnect, stopped := false, false, false, false;
      ghost var first := Now(false, false, false, false);
      var k := 0;
      assert packets[0..] == packets;
      while k < |packets| && !stopped
        invariant Valid() && k <= |packets|
        invariant OnPackets(first, id, packets) ==
                  OnPackets(Now(forceAck, newData, disconnect, stopped), id, packets[k..])
        decreases |packets| - k
      {
        assert packets[k..][1..] == packets[k + 1..];
        var force, more, drop, stop := HandlePacket(id, packets[k], Now(forceAck, newData, disconnect, stopped));
        forceAck, newData := forceAck || force, newData || more;
        disconnect, stopped := disconnect || drop, stopped || stop;
        k := k + 1;
      }
      assert Now(forceAck, newData, disconnect, stopped) == OnPackets(first, id, packets);
      if panicked {
        return;
      }
      if forceAck {
        Reschedule(id, FreshData);
      }
      if newData {
        DrainNotifications();
      }
      if disconnect {
        HandleDisconnection(id);
      }
    }

    // ---------------------------------------------------------------- sessions

    /** Removes a connection from the subscription map, filter by filter. */
    method ForgetSubscriptions(subs: set<Text>, id: ConnectionId)
      modifies this`subscriptionMap
      ensures subscriptionMap == ForgetId(old(subscriptionMap), subs, id)
    {
      var left := subs;
      while left != {}
        invariant left <= subs && subscriptionMap.Keys == old(subscriptionMap).Keys
        invariant forall f :: f in subscriptionMap ==>
          subscriptionMap[f] == if f in subs - left then old(subscriptionMap)[f] - {id} else old(subscriptionMap)[f]
        decreases |left|
      {
        var f :| f in left;
        if f in subscriptionMap {
          subscriptionMap := subscriptionMap[f := subscriptionMap[f] - {id}];
        }
        left := left - {f};
      }
    }

    /** Drops a connection; a lasting session is saved, its requests rewound. */
    method HandleDisconnection(id: ConnectionId)
      requires Valid()
      modifies this, datalog
      ensures Valid() && View() == RouterSpec.HandleDisconnection(old(View()), id)
    {
      hide CleanLogs, SaveState, ForgetId;
      if id !in sess {
        return;
      }
      var s := sess[id];
      sess := sess - {id};
      connectionMap := connectionMap - {s.client};
      var inflight := datalog.Clean(id);
      ForgetSubscriptions(s.subs, id);
      if s.clean {
        graveyard := graveyard - {s.client};
      } else {
        var saved := Save(s, inflight);
        graveyard := graveyard[s.client := saved];
      }
    }

    /** What is kept of a session: its requests, tracked or parked, rewound to what is unacknowledged. */
    method Save(s: Session, inflight: seq<DataRequest>) returns (saved: Saved)
      ensures saved == SaveState(s, inflight)
    {
      hide Restarted;
      var outgoing := new Outgoing.Of(s.out, s.wire);
      var retransmissions := outgoing.RetransmissionMap();
      var reqs := Rewound(s.reqs + inflight, retransmissions, s.out.inflight);
      saved := Saved(s.subs, Restarted(s.origin, reqs), reqs, s.out.unackedPubrels, s.out.ledger);
    }

    /** Lets a client in under a vacant key, with its saved session if it has one and wants it. */
    method HandleNewConnection(vacant: ConnectionId, client: Text, clean: bool, will: Option<Publish>)
      requires Valid() && vacant !in Replaced(View(), client).sess
      modifies this, datalog
      ensures Valid() && View() == RouterSpec.HandleNewConnection(old(View()), vacant, client, clean, will)
    {
      hide RouterSpec.HandleDisconnection, Admit, Let, WillsWith, ValidClientId;
      if !ValidClientId(client) {
        return;
      }
      if client in connectionMap {
        HandleDisconnection(connectionMap[client]);
      }
      if |sess| >= config.maxConnections {
        return;
      }
      AdmitClient(vacant, client, clean, will);
    }

    method AdmitClient(vacant: ConnectionId, client: Text, clean: bool, will: Option<Publish>)
      requires Valid()
      modifies this`sess, this`readyqueue, this`graveyard, this`connectionMap, this`lastWills, this`panicked
      ensures View() == Admit(old(View()), vacant, Let(old(View()), client, clean),
              WillsWith(old(View()), client, will))
    {
      hide NewSession, RouterSpec.Reschedule;
      var s := StartSession(client, clean);
      if will.Some? {
        lastWills := lastWills[client := will.value];
      }
      graveyard := graveyard - {client};
      sess := sess[vacant := s];
      connectionMap := connectionMap[client := vacant];
      Reschedule(vacant, Init);
    }

    /** A new session, or the saved one with its releases to be sent again. */
    method StartSession(client: Text, clean: bool) returns (s: Session)
      requires Valid()
      ensures s == Let(View(), client, clean) && s.client == client
    {
      var wire := Wire([], 0, Building, [], 0, 0);
      if clean || client !in graveyard {
        return Session(client, clean, {}, map[], [], Paused(Busy), EmptyOut([], NO_LEDGER), wire,
                       [ConnAck(false)], []);
      }
      var v := graveyard[client];
      var committed := [ConnAck(true)];
      var k := 0;
      while k < |v.unackedPubrels|
        invariant k <= |v.unackedPubrels|
        invariant committed == [ConnAck(true)] + PubRels(v.unackedPubrels)[..k]
      {
        committed := committed + [PubRel(v.unackedPubrels[k])];
        assert PubRels(v.unackedPubrels)[..k + 1] == PubRels(v.unackedPubrels)[..k] + [PubRel(v.unackedPubrels[k])];
        k := k + 1;
      }
      assert PubRels(v.unackedPubrels)[..k] == PubRels(v.unackedPubrels);
      s := Session(client, clean, v.subs, v.origin, v.reqs, Paused(Busy),
                   EmptyOut(v.unackedPubrels, v.ledger), wire, committed, []);
    }

    method HandleLastWill(client: Text)
      requires Valid()
      modifies this, datalog
      ensures Valid() && View() == RouterSpec.HandleLastWill(old(View()), client)
    {
      hide RouterSpec.AppendToCommitlog, Drain;
      if client !in lastWills {
        return;
      }
      var will := lastWills[client];
      lastWills := lastWills - {client};
      AppendToCommitlog(will);
      if panicked {
        return;
      }
      DrainNotifications();
    }

    /** Handles one event. */
    method Handle(id: ConnectionId, vacant: ConnectionId, event: Event)
      requires Valid() && (event.Connect? ==> vacant !in Replaced(View(), event.client).sess)
      modifies this, datalog
      ensures Valid() && View() == HandleEvent(old(View()), id, vacant, event)
    {
      hide RouterSpec.HandleNewConnection, RouterSpec.HandleDevicePayload, RouterSpec.HandleDisconnection,
           RouterSpec.HandleLastWill, RouterSpec.Reschedule;
      match event
      case Connect(client, clean, will) => HandleNewConnection(vacant, client, clean, will);
      case DeviceData(packets) => HandleDevicePayload(id, packets);
      case Disconnected => HandleDisconnection(id);
      case LinkReady => Reschedule(id, ReadyEvent);
      case PublishWill(client) => HandleLastWill(client);
    }
  }

  lemma GonePacket(b: Batch, id: ConnectionId, packet: Packet)
    requires id !in b.st.sess
    ensures OnPacket(b, id, packet) == Stop(b.(st := Panic(b.st)))
  {
  }

  lemma LoopStep(st: State, id: ConnectionId, n: nat)
    requires n > 0
    ensures ConsumeLoop(st, id, n) ==
            if ConsumeOne(st, id).1 then ConsumeLoop(ConsumeOne(st, id).0, id, n - 1) else ConsumeOne(st, id).0
    ensures ConsumeLoop(ConsumeOne(st, id).0, id, 0) == ConsumeOne(st, id).0
  {
    hide ConsumeOne;
  }

  lemma PushedTwice(w: Wire, a: seq<Notification>, b: seq<Notification>)
    ensures PushNotes(PushNotes(w, a), b) == PushNotes(w, a + b)
  {
    assert w.buffer + a + b == w.buffer + (a + b) && w.all + a + b == w.all + (a + b);
  }

  lemma KeepsFilter(s: Session, r: DataRequest, store: Store, cfg: Config)
    requires r.filterIdx < |store.logs| && |s.out.inflight| <= MAX_INFLIGHT
    ensures ForwardData(s, r, store, cfg).1.filterIdx == r.filterIdx
  {
    hide ReadV, OwedRetained, Deliver;
  }

  /** Keeps the requests of other filters. */
  method Retain(reqs: seq<DataRequest>, filter: Text) returns (kept: seq<DataRequest>)
    ensures kept == Without(reqs, filter)
  {
    kept := [];
    var k := 0;
    assert reqs[0..] == reqs;
    while k < |reqs|
      invariant k <= |reqs| && Without(reqs, filter) == kept + Without(reqs[k..], filter)
    {
      assert reqs[k..][1..] == reqs[k + 1..];
      if reqs[k].filter != filter {
        assert kept + ([reqs[k]] + Without(reqs[k + 1..], filter)) == kept + [reqs[k]] + Without(reqs[k + 1..], filter);
        kept := kept + [reqs[k]];
      }
      k := k + 1;
    }
    assert kept + [] == kept;
  }

  /** Sets the cursor of every request whose filter has something to retransmit. */
  method Rewound(reqs: seq<DataRequest>, retransmissions: map<FilterIdx, Cursor>, ghost inflight: seq<Inflight>)
    returns (rewound: seq<DataRequest>)
    requires forall f :: MapAgrees(retransmissions, inflight, f)
    ensures rewound == Rewind(reqs, inflight)
  {
    rewound := reqs;
    var k := 0;
    while k < |reqs|
      invariant k <= |reqs| == |rewound|
      invariant forall i :: 0 <= i < k ==> rewound[i] == RewindOne(reqs[i], inflight)
      invariant forall i :: k <= i < |reqs| ==> rewound[i] == reqs[i]
    {
      var f := reqs[k].filterIdx;
      assert MapAgrees(retransmissions, inflight, f);
      if f in retransmissions {
        rewound := rewound[k := reqs[k].(cursor := retransmissions[f])];
      }
      k := k + 1;
    }
  }
}
