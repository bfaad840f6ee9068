/** Runs of a new router that lead where its guarantees end. */
module RouterWitnesses {
  import opened Basics
  import opened LogSpec
  import opened RouterTypes
  import opened StoreSpec
  import opened Topics
  import opened WindowSpec
  import opened RouterSpec
  import opened RouterInv
  import opened RouterPublish
  import opened RouterSubscribe
  import opened RouterSessions
  import opened RouterBatch
  import opened RouterConsume
  import opened RouterOnward
  import opened RouterRun
  import opened RouterWakeUps
  import opened RouterLimits
  import opened RouterPanics

  const ANNA: Text := [97]
  const BOB: Text := [98]

  /** The topic of the one letter 0xE9. */
  const ACCENT: Text := [0xC3, 0xA9]

  ghost predicate Configured(size: nat, count: nat, cfg: Config) {
    size >= 1024 && count >= 1 && cfg.maxOutgoing >= 1 && cfg.maxConnections >= 2
  }

  lemma StartIsReached(size: nat, count: nat, cfg: Config)
    requires Configured(size, count, cfg)
    ensures Reached(Initial(size, count, cfg))
  {
    var st := Initial(size, count, cfg);
    assert Run(st, [], st);
    assert ReachedBy(size, count, cfg, [], st);
  }

  /** A router with nothing to handle receives an event and handles it. */
  lemma EventIsReached(st: State, id: ConnectionId, vacant: ConnectionId, e: Event)
    requires Reached(st) && !st.panicked && st.inbox == [] && EventInScope(e)
    requires e.Connect? ==> vacant !in Replaced(st.(inbox := [(id, e)]), e.client).sess
    ensures Reached(HandleEvent(st.(inbox := [(id, e)]), id, vacant, e).(inbox := []))
  {
    hide Reached, EventInScope, HandleEvent, Replaced;
    ReachedOn(st, Send(id, e));
    var sent := st.(inbox := [(id, e)]);
    assert Do(st, Send(id, e)) == sent;
    ReachedOn(sent, Handle(vacant));
    assert sent.inbox[1..] == [];
  }

  // ---------------------------------------------------------------- clients come and go

  /** The router after a client with a clean session has been let in. */
  function Connected(st: State, id: ConnectionId, client: Text): State {
    Admitted(st, id, NewSession(client, true, None), st.wills)
  }

  lemma ConnectedIsReached(st: State, id: ConnectionId, client: Text)
    requires Reached(st) && !st.panicked && st.inbox == []
    requires ValidClientId(client) && client !in st.byClient && id !in st.sess && |st.sess| < st.cfg.maxConnections
    ensures Reached(Connected(st, id, client))
  {
    hide Reached, ValidClientId;
    var e := Connect(client, true, None);
    EventIsReached(st, 0, id, e);
    var sent := st.(inbox := [(0, e)]);
    LetPaused(sent, client, true);
    AdmittedIs(sent, id, Let(sent, client, true), sent.wills);
    assert HandleEvent(sent, 0, id, e).(inbox := []) == Connected(st, id, client);
  }

  lemma DroppedIsReached(st: State, id: ConnectionId)
    requires Reached(st) && !st.panicked && st.inbox == []
    ensures Reached(HandleDisconnection(st, id))
  {
    hide Reached, CleanLogs, SaveState, ForgetId;
    EventIsReached(st, id, 0, Disconnected);
    assert HandleDisconnection(st.(inbox := [(id, Disconnected)]), id).(inbox := []) == HandleDisconnection(st, id);
  }

  /** Two clients connect and the first goes before it was polled: the router waits for an event although
      the second is ready. */
  lemma WaitsWithWork(size: nat, count: nat, cfg: Config) returns (st: State)
    requires Configured(size, count, cfg)
    ensures Reachable(st) && PollsNothing(st) && SomebodyReady(st)
  {
    hide Reached, Admitted, HandleDisconnection;
    var start := Initial(size, count, cfg);
    StartIsReached(size, count, cfg);
    ConnectedIsReached(start, 0, ANNA);
    var one := Connected(start, 0, ANNA);
    AdmittedHas(start, 0, ANNA);
    ConnectedIsReached(one, 1, BOB);
    var two := Connected(one, 1, BOB);
    AdmittedHas(one, 1, BOB);
    assert two.ready == [0, 1] && two.sess.Keys == {0, 1};
    DroppedIsReached(two, 0);
    st := HandleDisconnection(two, 0);
    DroppedHas(two, 0);
    assert 1 in st.sess && st.sess[1].status.Ready?;
  }

  lemma AdmittedHas(st: State, id: ConnectionId, client: Text)
    ensures var st' := Connected(st, id, client);
            && st'.sess.Keys == st.sess.Keys + {id} && st'.ready == st.ready + [id]
            && st'.sess == st.sess[id := NewSession(client, true, None).(status := Ready)]
            && st'.byClient == st.byClient[client := id] && st'.inbox == st.inbox && st'.panicked == st.panicked
            && st'.cfg == st.cfg && st'.store == st.store && st'.notes == st.notes
  {
  }

  lemma DroppedHas(st: State, id: ConnectionId)
    ensures var st' := HandleDisconnection(st, id);
            && st'.sess == st.sess - {id} && st'.ready == st.ready && st'.panicked == st.panicked
            && st'.inbox == st.inbox
  {
    hide CleanLogs, SaveState, ForgetId;
    if id !in st.sess {
      assert st.sess - {id} == st.sess;
    }
  }

  // ---------------------------------------------------------------- a topic that cannot be compared

  const EVERYTHING: SubscribeFilter := SubscribeFilter(HASH, AtMostOnce, true)

  function Accented(retain: bool): Publish { Publish(false, retain, AtMostOnce, 0, ACCENT, [1]) }

  /** A store without filters gets its first. */
  lemma FirstFilter(store: Store, path: Text)
    requires store.logs == [] && store.index == map[] && store.cache == map[]
    ensures var (s, idx, cursor) := NextNativeOffset(store, path);
            && idx == 0 && cursor == (0, 0)
            && s == store.(logs := [NewData(store, path)], index := map[path := 0])
  {
    assert NextNativeOffset(store, path).0.cache == map[];
  }

  /** A connection without subscriptions makes its first, to everything. */
  lemma FirstSubscription(b: Batch, id: ConnectionId)
    requires id in b.st.sess && b.st.sess[id].subs == {} && b.st.sess[id].reqs == [] && b.st.sess[id].status.Ready?
    requires b.st.store.logs == [] && b.st.store.index == map[] && b.st.store.cache == map[]
    ensures var b' := OnPacket(b, id, SubscribePacket(1, [EVERYTHING]));
            && b'.st.store == NextNativeOffset(b.st.store, HASH).0
            && b' == b.(st := b'.st, forceAck := true)
            && b'.st == b.st.(store := b'.st.store, sess := b'.st.sess, subMap := b'.st.subMap)
            && id in b'.st.sess && b'.st.sess.Keys == b.st.sess.Keys
            && b'.st.sess[id].reqs == [NewRequest(EVERYTHING, 0, (0, 0))] && b'.st.sess[id].status.Ready?
            && b'.st.sess[id].out == b.st.sess[id].out && b'.st.sess[id].wire == b.st.sess[id].wire
            && b.st.sess[id].committed <= b'.st.sess[id].committed
  {
    hide InRange, NextNativeOffset;
    FirstFilter(b.st.store, HASH);
    var (store, idx, cursor) := NextNativeOffset(b.st.store, HASH);
    var mid := b.st.(store := store);
    PrepareFilterIs(mid, id, EVERYTHING, idx, cursor);
    var next := PrepareFilter(mid, id, EVERYTHING, idx, cursor);
    assert [EVERYTHING][1..] == [];
    assert SubscribeAll(next, id, [], [AtMostOnce]) == (next, [AtMostOnce], false);
    assert [] + [AtMostOnce] == [AtMostOnce];
    assert SubscribeAll(b.st, id, [EVERYTHING], []) == (next, [AtMostOnce], false);
  }

  lemma BatchOfTwo(b: Batch, id: ConnectionId, p: Packet, q: Packet)
    requires !b.stopped && !OnPacket(b, id, p).stopped
    ensures BatchFails(b, id, [p, q]) <==> PacketFails(b, id, p) || PacketFails(OnPacket(b, id, p), id, q)
    ensures OnPackets(b, id, [p, q]) == OnPacket(OnPacket(b, id, p), id, q)
  {
    hide PacketFails, OnPacket;
    assert [p, q][1..] == [q] && [q][1..] == [];
    var next := OnPacket(b, id, p);
    assert OnPackets(next, id, [q]) == OnPacket(next, id, q);
    assert BatchFails(next, id, [q]) <==> PacketFails(next, id, q);
  }

  function Subscription(): Packet { SubscribePacket(1, [EVERYTHING]) }

  lemma SmallBatchInScope(e: Event, retain: bool)
    requires e == DeviceData([Subscription(), PublishPacket(Accented(retain), true)])
             || e == DeviceData([PublishPacket(Accented(retain), true), Subscription()])
    ensures EventInScope(e)
  {
  }

  /** Once there is a filter, one publish to such a topic makes the router panic. */
  lemma AccentPanics(size: nat, count: nat, cfg: Config) returns (st: State, step: Step)
    requires Configured(size, count, cfg)
    ensures Reachable(st) && Enabled(st, step) && StepInScope(step) && !ReadyTooLate(st, step)
    ensures Do(st, step).panicked
  {
    hide Reached, Do, OnPacket, BatchFails, Connected, EventInScope;
    var start := Initial(size, count, cfg);
    StartIsReached(size, count, cfg);
    ConnectedIsReached(start, 0, ANNA);
    var one := Connected(start, 0, ANNA);
    AdmittedHas(start, 0, ANNA);
    var packets := [Subscription(), PublishPacket(Accented(false), true)];
    SmallBatchInScope(DeviceData(packets), false);
    ReachedOn(one, Send(0, DeviceData(packets)));
    st, step := one.(inbox := [(0, DeviceData(packets))]), Handle(0);
    assert Do(one, Send(0, DeviceData(packets))) == st by { SendIs(one, 0, DeviceData(packets)); }
    FirstSubscription(Begun(st), 0);
    FirstFilter(st.store, HASH);
    BatchOfTwo(Begun(st), 0, packets[0], packets[1]);
    StepPanics(st, step);
  }

  lemma SendIs(st: State, from: ConnectionId, e: Event)
    requires !st.panicked && st.inbox == []
    ensures Do(st, Send(from, e)) == st.(inbox := [(from, e)])
  {
  }

  /** Without any filter such a publish is accepted, and retained. */
  lemma AccentRetained(b: Batch, id: ConnectionId)
    requires id in b.st.sess && b.st.store.logs == [] && b.st.store.cache == map[] && !b.st.panicked
    requires b.st.store.retained == []
    ensures var b' := OnPacket(b, id, PublishPacket(Accented(true), true));
            && b' == b.(st := b'.st, newData := true)
            && b'.st == b.st.(store := b'.st.store)
            && b'.st.store == b.st.store.(retained := [(ACCENT, Accented(true))],
                                          accepted := b.st.store.accepted + [Accented(true)])
  {
    hide InRange;
    assert RetainedDrop([], ACCENT) + [(ACCENT, Accented(true))] == [(ACCENT, Accented(true))];
    assert b.st.notes + [] == b.st.notes;
  }

  lemma QuietEnd(b: Batch, id: ConnectionId)
    requires !b.st.panicked && id in b.st.sess && b.st.sess[id].status.Ready? && b.st.notes == [] && !b.disconnect
    ensures FinishBatch(b, id) == b.st
  {
    hide InRange;
  }

  /** The state after a client has published such a topic, retained, and subscribed to everything. */
  lemma AccentWaits(st: State) returns (next: State)
    requires Reached(st) && !st.panicked && st.inbox == [] && st.notes == [] && 0 in st.sess
    requires st.sess[0].subs == {} && st.sess[0].reqs == [] && st.sess[0].status.Ready?
    requires st.store.logs == [] && st.store.index == map[] && st.store.cache == map[] && st.store.retained == []
    ensures Reached(next) && !next.panicked && next.ready == st.ready && 0 in next.sess
    ensures next.sess[0].reqs == [NewRequest(EVERYTHING, 0, (0, 0))]
    ensures next.store.retained == [(ACCENT, Accented(true))]
  {
    hide Reached, OnPacket, OnPackets, BatchFails, FinishBatch, EventInScope, InRange, NextNativeOffset;
    var packets := [PublishPacket(Accented(true), true), Subscription()];
    SmallBatchInScope(DeviceData(packets), true);
    EventIsReached(st, 0, 0, DeviceData(packets));
    var sent := st.(inbox := [(0, DeviceData(packets))]);
    AccentRetained(Begun(sent), 0);
    var b1 := OnPacket(Begun(sent), 0, packets[0]);
    FirstSubscription(b1, 0);
    FirstFilter(b1.st.store, HASH);
    BatchOfTwo(Begun(sent), 0, packets[0], packets[1]);
    QuietEnd(OnPacket(b1, 0, packets[1]), 0);
    next := HandleEvent(sent, 0, 0, DeviceData(packets)).(inbox := []);
  }

  /** Nothing happens until the first request is owed retained messages: then the router panics. */
  lemma RetainedAccentPanics(size: nat, count: nat, cfg: Config) returns (st: State)
    requires Configured(size, count, cfg)
    ensures Reachable(st) && Enabled(st, Poll) && Do(st, Poll).panicked
  {
    hide Reached, Do, Connected, ConsumeOne, InRange;
    var start := Initial(size, count, cfg);
    StartIsReached(size, count, cfg);
    ConnectedIsReached(start, 0, ANNA);
    AdmittedHas(start, 0, ANNA);
    st := AccentWaits(Connected(start, 0, ANNA));
    AcksKeepRequests(st.sess[0]);
    assert Unsliceable(st.store.retained[0].0);
    assert RequestFails(PollStart(st), 0);
    StepPanics(st, Poll);
  }

  lemma AcksKeepRequests(s: Session)
    ensures AckDeviceData(s).reqs == s.reqs && AckDeviceData(s).out == s.out
  {
  }

  // ---------------------------------------------------------------- a Ready event too late

  const PLAIN: Publish := Publish(false, false, AtMostOnce, 0, ANNA, [1])

  function Pings(n: nat): (ps: seq<Packet>)
    ensures |ps| == n
  {
    seq(n, _ => PingReqPacket)
  }

  /** Each ping is one more acknowledgement to send. */
  lemma {:induction false} PingsAnswered(b: Batch, id: ConnectionId, n: nat)
    requires id in b.st.sess && !b.stopped
    ensures var b' := OnPackets(b, id, Pings(n));
            && b' == b.(st := b'.st, forceAck := b'.forceAck) && b'.st == b.st.(sess := b'.st.sess)
            && id in b'.st.sess
            && b'.st.sess[id] == b.st.sess[id].(committed := b'.st.sess[id].committed)
            && b.st.sess[id].committed <= b'.st.sess[id].committed
            && |b'.st.sess[id].committed| == |b.st.sess[id].committed| + n
    decreases n
  {
    hide InRange;
    if n > 0 {
      var next := OnPacket(b, id, PingReqPacket);
      assert Pings(n)[0] == PingReqPacket && Pings(n)[1..] == Pings(n - 1);
      PingsAnswered(next, id, n - 1);
    }
  }

  /** The first publish of a log that everything is filed under. */
  lemma FirstPublish(b: Batch, id: ConnectionId, data: Data)
    requires id in b.st.sess && b.st.store.logs == [data] && data.filter == HASH && data.waiters == []
    requires b.st.store.cache == map[] && !b.st.panicked
    ensures var b' := OnPacket(b, id, PublishPacket(PLAIN, true));
            && b' == b.(st := b'.st, newData := true) && b'.st == b.st.(store := b'.st.store)
            && b'.st.store.logs == [AppendOne(data, PLAIN)] && b'.st.store.retained == b.st.store.retained
            && b'.st.store.maxSegmentSize == b.st.store.maxSegmentSize
            && b'.st.store.maxSegments == b.st.store.maxSegments
  {
    hide InRange, AppendMany, AppendOne;
    var store := b.st.store;
    AnnaIsEverything();
    AcceptLogs(store, PLAIN);
    LookupIsExact(UpdateRetained(store, PLAIN), ANNA);
    var idxs := Lookup(UpdateRetained(store, PLAIN), ANNA).1;
    var woken := Accept(store, PLAIN).1;
    assert woken == AppendMany(store.logs, idxs, PLAIN).1;
    if woken != [] {
      WokenWereWaiting(store.logs, idxs, PLAIN, 0);
      assert false;
    }
    assert b.st.notes + [] == b.st.notes && PLAIN.(retain := false) == PLAIN;
  }

  lemma AnnaIsEverything()
    ensures Matches(ANNA, HASH) && !Unsliceable(ANNA)
  {
    assert HASH[1..] == [];
    assert [HASH_SIGN] + Split([])[0] == HASH && Split([])[1..] == [];
    assert Split(HASH)[0] == HASH;
  }

  /** A log with one item gives it to a reader at its start. */
  lemma FirstRead(size: nat, count: nat, len: nat)
    requires size >= 1024 && count >= 1 && len >= 1
    ensures |ReadV(AppendLaid(Empty(size, count), PLAIN), (0, 0), len).1| == 1
  {
    var log := AppendLaid(Empty(size, count), PLAIN);
    EmptyHolds(size, count);
    AppendHolds(Empty(size, count), [], PLAIN);
    assert [] + [PLAIN] == [PLAIN];
    ReadVRefinesHistory(log, [PLAIN], (0, 0), len);
  }

  /** Forwarding that publish fills a buffer that holds 198 notifications. */
  lemma FirstForward(s: Session, store: Store, cfg: Config, data: Data)
    requires store.logs == [AppendOne(data, PLAIN)] && store.retained == [] && cfg.maxOutgoing >= 1
    requires data.log == Empty(store.maxSegmentSize, store.maxSegments)
    requires store.maxSegmentSize >= 1024 && store.maxSegments >= 1
    requires |s.wire.buffer| >= MAX_CHANNEL_CAPACITY - 2 && |s.out.inflight| <= MAX_INFLIGHT
    ensures var r := NewRequest(EVERYTHING, 0, (0, 0));
            var (s', r', status) := ForwardData(s, r, store, cfg);
            && !ForwardFails(s, r, store) && status.BufferFull?
            && s' == s.(out := s'.out, wire := s'.wire)
            && Unschedule in s'.wire.buffer && s.wire.buffer <= s'.wire.buffer && s'.wire.link == s.wire.link
            && s'.wire.wakes == if s.wire.wakes < MAX_CHANNEL_CAPACITY then s.wire.wakes + 1 else s.wire.wakes
  {
    hide InRange, ReadV, MissedBy;
    var r := NewRequest(EVERYTHING, 0, (0, 0));
    FirstRead(store.maxSegmentSize, store.maxSegments, cfg.maxOutgoing);
    var (pos, r', publishes) := ReadRequest(r, store, cfg.maxOutgoing);
    assert |publishes| == 1;
    var notes := ForwardNotes(publishes) + [Unschedule];
    assert notes[1] == Unschedule;
    var s' := ForwardData(s, r, store, cfg).0;
    assert s'.wire.buffer == s.wire.buffer + notes;
    assert s'.wire.buffer[|s.wire.buffer| + 1] == Unschedule;
  }

  /** A device subscribes to everything, publishes, and pings 200 times. */
  function Flood(): seq<Packet> { [Subscription(), PublishPacket(PLAIN, true)] + Pings(200) }

  lemma FloodInScope()
    ensures EventInScope(DeviceData(Flood()))
  {
  }

  lemma FloodUnrolled(b: Batch, id: ConnectionId)
    requires !b.stopped && !OnPacket(b, id, Subscription()).stopped
    requires !OnPacket(OnPacket(b, id, Subscription()), id, PublishPacket(PLAIN, true)).stopped
    ensures OnPackets(b, id, Flood()) ==
            OnPackets(OnPacket(OnPacket(b, id, Subscription()), id, PublishPacket(PLAIN, true)), id, Pings(200))
  {
    hide OnPacket;
    assert Flood()[0] == Subscription() && Flood()[1] == PublishPacket(PLAIN, true);
    assert Flood()[1..][1..] == Pings(200);
  }

  /** The state of a new router in which its only connection has one publish to read, and some 200
      acknowledgements to be sent. */
  ghost predicate Flooded(st: State) {
    && Reached(st) && !st.panicked && st.inbox == [] && st.ready == [0] && 0 in st.sess
    && st.cfg.maxOutgoing >= 1 && st.store.retained == []
    && st.store.maxSegmentSize >= 1024 && st.store.maxSegments >= 1
    && st.store.logs == [AppendOne(NewData0(st.store), PLAIN)]
    && var s := st.sess[0];
       && s.reqs == [NewRequest(EVERYTHING, 0, (0, 0))] && |s.out.inflight| == 0
       && s.wire == Wire([], 0, Building, [], 0, 0)
       && |s.committed| >= MAX_CHANNEL_CAPACITY && s.committed[0].ConnAck?
  }

  function NewData0(store: Store): Data
  {
    Data(HASH, Empty(store.maxSegmentSize, store.maxSegments), [], [], 0)
  }

  lemma FloodIsReached(st: State) returns (next: State)
    requires Reached(st) && !st.panicked && st.inbox == [] && st.notes == [] && st.ready == [0] && 0 in st.sess
    requires st.sess[0] == NewSession(ANNA, true, None).(status := Ready) && st.cfg.maxOutgoing >= 1
    requires st.store.logs == [] && st.store.index == map[] && st.store.cache == map[] && st.store.retained == []
    requires st.store.accepted == [] && st.store.maxSegmentSize >= 1024 && st.store.maxSegments >= 1
    ensures Flooded(next)
  {
    hide Reached, OnPacket, OnPackets, BatchFails, FinishBatch, EventInScope, InRange, NextNativeOffset, AppendOne,
         Flood;
    FloodInScope();
    EventIsReached(st, 0, 0, DeviceData(Flood()));
    var sent := st.(inbox := [(0, DeviceData(Flood()))]);
    FirstSubscription(Begun(sent), 0);
    FirstFilter(sent.store, HASH);
    var b1 := OnPacket(Begun(sent), 0, Subscription());
    FirstPublish(b1, 0, NewData0(sent.store));
    var b2 := OnPacket(b1, 0, PublishPacket(PLAIN, true));
    PingsAnswered(b2, 0, 200);
    FloodUnrolled(Begun(sent), 0);
    var b3 := OnPackets(b2, 0, Pings(200));
    QuietEnd(b3, 0);
    next := HandleEvent(sent, 0, 0, DeviceData(Flood())).(inbox := []);
  }

  /** The link is being built, and is told to be unscheduled. */
  ghost predicate TellsOff(st: State) {
    && !st.panicked && st.inbox == [] && 0 in st.sess
    && var w := st.sess[0].wire;
       && w.link.Building? && w.wakes >= 2 && w.buffer != [] && w.buffer[0].DeviceAck? && w.buffer[0].ack.ConnAck?
       && Unschedule in w.buffer
  }

  lemma FloodStarts(st: State)
    requires Flooded(st)
    ensures var st' := PollStart(st);
            && st' == st.(sess := st'.sess, ready := [0]) && 0 in st'.sess
            && st'.sess[0].reqs == st.sess[0].reqs && st'.sess[0].out == st.sess[0].out
            && st'.sess[0].wire ==
               Wire(AckNotes(st.sess[0].committed), 1, Building, AckNotes(st.sess[0].committed), 0, 0)
  {
    hide Reached, InRange;
    assert st.ready[1..] + [0] == [0];
    assert [] + AckNotes(st.sess[0].committed) == AckNotes(st.sess[0].committed);
  }

  lemma FloodConsumed(st: State)
    requires Flooded(st)
    ensures TellsOff(ConsumeOne(PollStart(st), 0).0) && !ConsumeOne(PollStart(st), 0).1
  {
    hide Reached, InRange, PollStart, ForwardData, ForwardFails, NewSession, AppendOne, Empty;
    FloodStarts(st);
    var polled := PollStart(st);
    var s := polled.sess[0];
    FirstForward(s, polled.store, polled.cfg, NewData0(st.store));
    var (s', r', status) := ForwardData(s, s.reqs[0], polled.store, polled.cfg);
    assert s'.wire.buffer[0] == s.wire.buffer[0] == DeviceAck(st.sess[0].committed[0]);
  }

  lemma FloodIsPolled(st: State)
    requires Flooded(st)
    ensures Reached(Consume(st)) && TellsOff(Consume(st))
  {
    hide Reached, InRange, PollStart, ConsumeOne, TellsOff, AppendOne;
    FloodConsumed(st);
    ReachedOn(st, Poll);
    ConsumeIs(st);
    assert ConsumeLoop(PollStart(st), 0, MAX_SCHEDULE_ITERATIONS) == ConsumeOne(PollStart(st), 0).0;
  }

  /** The link is built, takes the buffer, and is about to report when it has written it. */
  lemma ReportsLater(st: State) returns (next: State)
    requires Reached(st) && TellsOff(st)
    ensures Reached(next) && !next.panicked && next.inbox == [] && 0 in next.sess
    ensures next.sess[0].wire.link == Writing(true)
  {
    hide Reached;
    var w := st.sess[0].wire;
    assert Unschedule in w.buffer[1..] by {
      var k :| 0 <= k < |w.buffer| && w.buffer[k] == Unschedule;
      assert w.buffer[1..][k - 1] == Unschedule;
    }
    ReachedOn(st, Build(0));
    var built := BuildLink(st, 0);
    ReachedOn(built, TakeWake(0));
    var woken := TakeWakeUp(built, 0);
    ReachedOn(woken, Exchange(0));
    next := ExchangeBuffer(woken, 0);
  }

  /** A connection is dropped while its link is writing; the report of the link comes too late, and makes the
      router panic. */
  lemma LateReadyPanics(size: nat, count: nat, cfg: Config) returns (st: State, step: Step)
    requires Configured(size, count, cfg)
    ensures Reachable(st) && Enabled(st, step) && StepInScope(step) && ReadyTooLate(st, step)
    ensures Do(st, step).panicked
  {
    hide Reached, Connected, Flooded, TellsOff, Consume, HandleDisconnection, InRange;
    var start := Initial(size, count, cfg);
    StartIsReached(size, count, cfg);
    ConnectedIsReached(start, 0, ANNA);
    AdmittedHas(start, 0, ANNA);
    var flooded := FloodIsReached(Connected(start, 0, ANNA));
    FloodIsPolled(flooded);
    var writing := ReportsLater(Consume(flooded));
    st := LastReport(writing);
    step := Handle(0);
  }

  lemma LastReport(st: State) returns (next: State)
    requires Reached(st) && !st.panicked && st.inbox == [] && 0 in st.sess && st.sess[0].wire.link == Writing(true)
    ensures Reachable(next) && next.inbox == [(0, LinkReady)] && 0 !in next.sess
  {
    hide Reached, HandleDisconnection, InRange;
    ReachedOn(st, Send(0, Disconnected));
    SendIs(st, 0, Disconnected);
    var a := st.(inbox := [(0, Disconnected)]);
    ReachedOn(a, Written(0));
    var b := WrittenOut(a, 0);
    assert b.inbox == [(0, Disconnected), (0, LinkReady)] && b.inbox[1..] == [(0, LinkReady)];
    ReachedOn(b, Handle(0));
    DroppedHas(b, 0);
    next := HandleDisconnection(b, 0).(inbox := [(0, LinkReady)]);
  }
}
