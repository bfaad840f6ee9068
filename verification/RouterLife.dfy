/** The life of a connection: how it begins, and what each step of the router does to its device. */
module RouterLife {
  import opened Basics
  import opened RouterTypes
  import opened LogSpec
  import opened StoreSpec
  import opened WindowSpec
  import opened RouterSpec
  import opened RouterInv
  import opened RouterSessions
  import opened RouterBatch
  import opened RouterForward
  import opened RouterRun
  import opened DeviceSpec
  import opened RouterDevice
  import opened RouterDesk

  // ---------------------------------------------------------------- how a connection begins

  /** The id has none of the characters that mean something in a topic: '+', '$', '#' and '/'. */
  predicate IsPlainId(client: Text) {
    forall k :: 0 <= k < |client| ==> client[k] !in [43, 36, 35, 47]
  }

  lemma PlainIdIsValid(client: Text)
    ensures ValidClientId(client) <==> IsPlainId(client)
  {
  }

  /** The client is let in: its id is plain, and there is room once its previous connection is gone. */
  predicate LetsIn(st: State, client: Text) {
    IsPlainId(client) && |Replaced(st, client).sess| < st.cfg.maxConnections
  }

  /** The acknowledgements that wait for a resumed session: its CONNACK, and one PUBREL for each packet id that
      was saved, in order. */
  ghost predicate Greeting(acks: seq<Ack>, releases: seq<PacketId>) {
    && |acks| == 1 + |releases| && acks[0] == ConnAck(true)
    && forall k :: 0 <= k < |releases| ==> acks[1 + k] == PubRel(releases[k])
  }

  /** The connection starts, ready to be served, with what was saved of the session if there is something and
      the client wants it, and with nothing if not. */
  ghost predicate Started(mid: State, s: Session, client: Text, clean: bool) {
    && s.client == client && s.clean == clean && s.recorded == [] && s.status.Ready?
    && s.wire == Wire([], 0, Building, [], 0, 0) && s.out.inflight == [] && s.out.sent == []
    && if !clean && client in mid.grave then
         var v := mid.grave[client];
         && Greeting(s.committed, v.unackedPubrels) && s.out.unackedPubrels == v.unackedPubrels
         && s.subs == v.subs && s.reqs == v.reqs && s.origin == v.origin && s.out.ledger == v.ledger
       else
         && s.committed == [ConnAck(false)] && s.out.unackedPubrels == []
         && s.subs == {} && s.reqs == [] && s.origin == map[] && s.out.ledger == NO_LEDGER
  }

  /** The rest of the router after a client has been let in. */
  ghost predicate MakesRoom(mid: State, st': State, id: ConnectionId, client: Text, will: Option<Publish>) {
    && st'.sess.Keys == mid.sess.Keys + {id} && (forall i :: i in mid.sess && i != id ==> st'.sess[i] == mid.sess[i])
    && id in st'.ready && st'.byClient == mid.byClient[client := id] && st'.grave == mid.grave - {client}
    && st'.store == mid.store && st'.subMap == mid.subMap
    && st'.wills == (if will.Some? then mid.wills[client := will.value] else mid.wills)
  }

  /** Whatever a client connects with: its previous connection is dropped first; then it is let in or not. */
  lemma ConnectionStarts(st: State, vacant: ConnectionId, client: Text, clean: bool, will: Option<Publish>)
    requires vacant !in Replaced(st, client).sess
    ensures var mid, st' := Replaced(st, client), HandleNewConnection(st, vacant, client, clean, will);
            && (client !in st.byClient ==> mid == st)
            && (client in st.byClient && st.byClient[client] in st.sess ==> Dropped(st, mid, st.byClient[client]))
            && (!IsPlainId(client) ==> st' == st)
            && (IsPlainId(client) && !LetsIn(st, client) ==> st' == mid)
            && (LetsIn(st, client) ==>
                  vacant in st'.sess && Started(mid, st'.sess[vacant], client, clean)
                  && MakesRoom(mid, st', vacant, client, will))
  {
    hide InRange, Replaced, HandleNewConnection, ValidClientId, IsPlainId, Dropped, LetIn, Started, MakesRoom;
    PlainIdIsValid(client);
    var mid := Replaced(st, client);
    ReplacedDrops(st, client);
    ConfigStays(st, client);
    NewConnectionIs(st, vacant, client, clean, will);
    if LetsIn(st, client) {
      LetInStarts(mid, vacant, client, clean, will);
    }
  }

  lemma ReplacedDrops(st: State, client: Text)
    ensures client !in st.byClient ==> Replaced(st, client) == st
    ensures client in st.byClient && st.byClient[client] in st.sess ==>
              Dropped(st, Replaced(st, client), st.byClient[client])
  {
    hide InRange, HandleDisconnection, Dropped;
    if client in st.byClient && st.byClient[client] in st.sess {
      DisconnectionDrops(st, st.byClient[client]);
    }
  }

  lemma NewConnectionIs(st: State, vacant: ConnectionId, client: Text, clean: bool, will: Option<Publish>)
    requires vacant !in Replaced(st, client).sess
    ensures HandleNewConnection(st, vacant, client, clean, will) ==
            if !ValidClientId(client) then st
            else if |Replaced(st, client).sess| >= Replaced(st, client).cfg.maxConnections then Replaced(st, client)
            else LetIn(Replaced(st, client), vacant, client, clean, will)
  {
    hide InRange, Replaced, ValidClientId, Admit, Let, WillsWith;
  }

  lemma LetInStarts(mid: State, vacant: ConnectionId, client: Text, clean: bool, will: Option<Publish>)
    requires |mid.sess| < mid.cfg.maxConnections
    ensures var st' := LetIn(mid, vacant, client, clean, will);
            && vacant in st'.sess && Started(mid, st'.sess[vacant], client, clean)
            && MakesRoom(mid, st', vacant, client, will)
  {
    hide InRange, Admit, Let, Started, WillsWith, MakesRoom;
    var s, wills := Let(mid, client, clean), WillsWith(mid, client, will);
    LetStarts(mid, client, clean);
    ClientOf(mid, client, clean);
    AdmitStarts(mid, vacant, s, wills);
    RoomIsMade(mid, Admit(mid, vacant, s, wills), vacant, client, will, s.(status := Ready));
  }

  lemma RoomIsMade(mid: State, st': State, vacant: ConnectionId, client: Text, will: Option<Publish>, s: Session)
    requires st' == mid.(sess := mid.sess[vacant := s], ready := mid.ready + [vacant],
                         byClient := mid.byClient[client := vacant], grave := mid.grave - {client},
                         wills := WillsWith(mid, client, will))
    ensures MakesRoom(mid, st', vacant, client, will)
  {
    hide InRange;
    assert (mid.ready + [vacant])[|mid.ready|] == vacant;
  }

  lemma ClientOf(mid: State, client: Text, clean: bool)
    ensures Let(mid, client, clean).client == client
  {
  }

  lemma ConfigStays(st: State, client: Text)
    ensures Replaced(st, client).cfg == st.cfg
  {
    hide CleanLogs, SaveState, ForgetId, InRange;
  }

  lemma LetStarts(mid: State, client: Text, clean: bool)
    ensures var s := Let(mid, client, clean);
            s.status == Paused(Busy) && Started(mid, s.(status := Ready), client, clean)
  {
  }

  lemma AdmitStarts(mid: State, vacant: ConnectionId, s: Session, wills: map<Text, Publish>)
    requires s.status == Paused(Busy)
    ensures var st' := Admit(mid, vacant, s, wills);
            && vacant in st'.sess && st'.sess == mid.sess[vacant := s.(status := Ready)]
            && st'.ready == mid.ready + [vacant] && vacant in st'.ready
            && st' == mid.(sess := st'.sess, ready := st'.ready, byClient := mid.byClient[s.client := vacant],
                           grave := mid.grave - {s.client}, wills := wills)
  {
    hide InRange;
    AdmittedIs(mid, vacant, s, wills);
    assert (mid.ready + [vacant])[|mid.ready|] == vacant;
  }

  // ---------------------------------------------------------------- what a poll leaves alone

  /** The acknowledgements among some notifications. */
  ghost function Acks(ns: seq<Notification>): seq<Ack> {
    if ns == [] then []
    else Acks(ns[..|ns| - 1]) + if ns[|ns| - 1].DeviceAck? then [ns[|ns| - 1].ack] else []
  }

  /** All the acknowledgements a connection has ever been committed to, in order: those put in the buffer of its
      link, and those still waiting. */
  ghost function AllAcks(s: Session): seq<Ack> { Acks(s.wire.all) + s.committed }

  lemma {:induction false} AcksJoin(a: seq<Notification>, b: seq<Notification>)
    ensures Acks(a + b) == Acks(a) + Acks(b)
  {
    if b == [] {
      assert a + b == a;
    } else {
      AcksJoin(a, b[..|b| - 1]);
      assert (a + b)[..|a + b| - 1] == a + b[..|b| - 1];
    }
  }

  lemma {:induction false} AcksOfNotes(acks: seq<Ack>)
    ensures Acks(AckNotes(acks)) == acks
  {
    if acks != [] {
      AcksOfNotes(acks[..|acks| - 1]);
      assert AckNotes(acks)[..|acks| - 1] == AckNotes(acks[..|acks| - 1]);
    }
  }

  lemma {:induction false} NoAcksInForwards(fs: seq<Forward>)
    ensures Acks(ForwardNotes(fs)) == []
  {
    if fs != [] {
      NoAcksInForwards(fs[..|fs| - 1]);
      assert ForwardNotes(fs)[..|fs| - 1] == ForwardNotes(fs[..|fs| - 1]);
    }
  }

  /** A device cannot tell from its acknowledgements, its subscriptions, or what is still to be released or
      completed that anything has happened; and the connection does not come to a rest with an acknowledgement
      to make. */
  ghost predicate SameToDevice(s: Session, s': Session) {
    && s'.client == s.client && s'.clean == s.clean && s'.subs == s.subs && s'.recorded == s.recorded
    && s'.out.unackedPubrels == s.out.unackedPubrels
    && AllAcks(s') == AllAcks(s)
    && (IsCaughtup(s'.status) ==> s'.committed == [] || (IsCaughtup(s.status) && s'.committed == s.committed))
  }

  lemma SameOn(a: Session, b: Session, c: Session)
    requires SameToDevice(a, b) && SameToDevice(b, c)
    ensures SameToDevice(a, c)
  {
  }

  lemma UndisturbedIsSame(s: Session, s': Session)
    requires Undisturbed(s, s')
    ensures SameToDevice(s, s') && Roused(s.status, s'.status)
  {
  }

  /** Sending the acknowledgements. */
  lemma AckingIsSame(s: Session)
    ensures SameToDevice(s, AckDeviceData(s)) && AckDeviceData(s).committed == []
    ensures AckDeviceData(s).status == s.status
  {
    hide Wake;
    if s.committed != [] {
      AcksJoin(s.wire.all, AckNotes(s.committed));
      AcksOfNotes(s.committed);
      WakeLeaves(PushNotes(s.wire, AckNotes(s.committed)));
      assert Acks(s.wire.all) + s.committed + [] == Acks(s.wire.all) + s.committed;
    }
  }

  lemma AcksThenUnschedule(fs: seq<Forward>)
    ensures Acks(ForwardNotes(fs) + [Unschedule]) == []
  {
    NoAcksInForwards(fs);
    assert (ForwardNotes(fs) + [Unschedule])[..|fs|] == ForwardNotes(fs);
  }

  lemma DeliverIsSame(s: Session, ps: seq<Forward>, qos: QoS)
    ensures var s' := Deliver(s, ps, qos).0;
            SameToDevice(s, s') && s'.committed == s.committed && s'.status == s.status
  {
    hide Acks, Wake, ForwardNotes;
    var (out, fs) := PushForwards(s.out, ps, qos);
    var full := |s.wire.buffer| + |fs| >= MAX_CHANNEL_CAPACITY - 1;
    var notes := ForwardNotes(fs) + if full then [Unschedule] else [];
    AcksJoin(s.wire.all, notes);
    NoAcksInForwards(fs);
    AcksThenUnschedule(fs);
    assert ForwardNotes(fs) + [] == ForwardNotes(fs);
    WakeLeaves(PushNotes(s.wire, notes));
    assert Acks(s.wire.all) + [] == Acks(s.wire.all);
  }

  lemma ForwardIsSame(s: Session, r: DataRequest, store: Store, cfg: Config)
    requires r.filterIdx < |store.logs| && |s.out.inflight| <= MAX_INFLIGHT
    ensures var s' := ForwardData(s, r, store, cfg).0;
            SameToDevice(s, s') && s'.committed == s.committed && s'.status == s.status
  {
    hide ReadRequest, Deliver, MissedBy, Acks, InRange;
    var slots := Slots(s, r, cfg);
    if r.qos.AtMostOnce? || slots != 0 {
      var noted := Noted(s, MissedBy(r, store.logs[r.filterIdx].log));
      DeliverIsSame(noted, ReadRequest(r, store, slots).2, r.qos);
      assert SameToDevice(s, noted);
    }
  }

  /** A poll of this connection leaves the others alone, and tells its device nothing new. */
  ghost predicate PollSame(st: State, st': State, id: ConnectionId) {
    && st'.sess.Keys == st.sess.Keys
    && (forall i :: i in st.sess && i != id ==> st'.sess[i] == st.sess[i])
    && (id in st.sess ==>
          && SameToDevice(st.sess[id], st'.sess[id]) && st'.sess[id].committed == st.sess[id].committed
          && (st'.sess[id].status.Ready? ==> st.sess[id].status.Ready?))
    && st'.subMap == st.subMap && st'.wills == st.wills && st'.store.accepted == st.store.accepted
    && st'.grave == st.grave
  }

  lemma PollSameOn(a: State, b: State, c: State, id: ConnectionId)
    requires PollSame(a, b, id) && PollSame(b, c, id)
    ensures PollSame(a, c, id)
  {
    hide SameToDevice;
    if id in a.sess {
      SameOn(a.sess[id], b.sess[id], c.sess[id]);
    }
  }

  lemma PauseIsSame(st: State, id: ConnectionId, reason: PauseReason)
    requires id in st.sess && (reason.Caughtup? ==> st.sess[id].committed == [])
    ensures PollSame(st, Pause(st, id, reason), id)
  {
    hide InRange, SameToDevice;
    SameSelf(st.sess[id]);
    PausingIsSame(st.sess[id], reason);
  }

  lemma PausingIsSame(s: Session, reason: PauseReason)
    requires reason.Caughtup? ==> s.committed == []
    ensures SameToDevice(s, s.(status := Paused(reason)))
  {
    hide Acks;
  }

  lemma WithIsSame(st: State, id: ConnectionId, s: Session)
    requires id in st.sess && SameToDevice(st.sess[id], s) && s.committed == st.sess[id].committed
    requires s.status == st.sess[id].status
    ensures PollSame(st, With(st, id, s), id)
  {
    hide InRange, SameToDevice;
  }

  lemma ParkIsSame(st: State, id: ConnectionId, r: DataRequest)
    requires r.filterIdx < |st.store.logs|
    ensures PollSame(st, Park(st, id, r), id)
  {
    hide InRange, Acks;
  }

  lemma PanicIsSame(st: State, id: ConnectionId)
    ensures PollSame(st, Panic(st), id)
  {
    hide InRange, Acks;
  }

  lemma ForwardedFilter(s: Session, r: DataRequest, store: Store, cfg: Config)
    requires r.filterIdx < |store.logs| && |s.out.inflight| <= MAX_INFLIGHT
    ensures ForwardData(s, r, store, cfg).1.filterIdx == r.filterIdx
  {
    hide ReadV, OwedRetained, Deliver;
  }

  lemma ConsumeOneIsSame(st: State, id: ConnectionId)
    requires id in st.sess && st.sess[id].committed == []
    ensures PollSame(st, ConsumeOne(st, id).0, id) && id in ConsumeOne(st, id).0.sess
  {
    hide InRange, SameToDevice, PollSame, ForwardData, ForwardFails, Pause, Park, With;
    var s := st.sess[id];
    PanicIsSame(st, id);
    if s.reqs == [] {
      PauseIsSame(st, id, Caughtup);
      KeepsKey(st, Pause(st, id, Caughtup), id);
    } else {
      var r := s.reqs[0];
      if r.filterIdx < |st.store.logs| && |s.out.inflight| <= MAX_INFLIGHT && !ForwardFails(s, r, st.store) {
        ForwardIsSame(s, r, st.store, st.cfg);
        ForwardedFilter(s, r, st.store, st.cfg);
        var (s', r', status) := ForwardData(s, r, st.store, st.cfg);
        BackIsSame(st, id, s', r', s.reqs[1..] + [r']);
        BackIsSame(st, id, s', r', s.reqs[1..]);
        var back := With(st, id, s'.(reqs := s.reqs[1..] + [r']));
        PauseIsSame(back, id, Busy);
        PauseIsSame(back, id, InflightFull);
        PollSameOn(st, back, Pause(back, id, Busy), id);
        PollSameOn(st, back, Pause(back, id, InflightFull), id);
        var fewer := With(st, id, s'.(reqs := s.reqs[1..]));
        ParkIsSame(fewer, id, r');
        PollSameOn(st, fewer, Park(fewer, id, r'), id);
      }
    }
    KeepsKey(st, ConsumeOne(st, id).0, id);
  }

  lemma KeepsKey(st: State, st': State, id: ConnectionId)
    requires PollSame(st, st', id) && id in st.sess
    ensures id in st'.sess && st'.sess[id].committed == st.sess[id].committed
  {
  }

  lemma BackIsSame(st: State, id: ConnectionId, s': Session, r': DataRequest, reqs: seq<DataRequest>)
    requires id in st.sess && SameToDevice(st.sess[id], s') && s'.committed == st.sess[id].committed == []
    requires s'.status == st.sess[id].status
    ensures var st' := With(st, id, s'.(reqs := reqs));
            PollSame(st, st', id) && id in st'.sess && st'.sess[id].committed == [] && st'.store == st.store
  {
    hide InRange, Acks;
  }

  lemma {:induction false} ConsumeLoopIsSame(st: State, id: ConnectionId, n: nat)
    requires id in st.sess && st.sess[id].committed == []
    ensures PollSame(st, ConsumeLoop(st, id, n), id)
    decreases n
  {
    hide ConsumeOne, PollSame, InRange;
    if n == 0 {
      NothingPolled(st, id);
    } else {
      var (next, goOn) := ConsumeOne(st, id);
      ConsumeOneIsSame(st, id);
      if goOn {
        KeepsKey(st, next, id);
        ConsumeLoopIsSame(next, id, n - 1);
        PollSameOn(st, next, ConsumeLoop(next, id, n - 1), id);
      }
    }
  }

  lemma NothingPolled(st: State, id: ConnectionId)
    ensures PollSame(st, st, id)
  {
    hide Acks;
  }

  // ---------------------------------------------------------------- one step in the life of a connection

  /** The subscriptions under a key, none if it is vacant. */
  function SubsOf(sess: map<ConnectionId, Session>, i: ConnectionId): set<Text> {
    if i in sess then sess[i].subs else {}
  }

  /** The router knows of no subscription that a connection has not. */
  ghost predicate MapsOk(st: State) {
    forall i :: MapOk(SubsOf(st.sess, i), st.subMap, i)
  }

  /** A connection that rests has no acknowledgement to make. */
  ghost predicate AcksOk(st: State) {
    forall i :: i in st.sess && IsCaughtup(st.sess[i].status) ==> st.sess[i].committed == []
  }

  /** The connection goes on after these packets as its device may expect: all of them have been answered, in
      order; the QoS 2 publishes not released among them are recorded; and of the packet ids to be completed
      at first and those a PUBREC has come for, those are still to be completed that no PUBCOMP has come for. */
  ghost predicate Goes(st: State, next: State, i: ConnectionId, heard: seq<Packet>)
    requires i in st.sess && i in next.sess
  {
    var s, s' := st.sess[i], next.sess[i];
    && s'.client == s.client && s'.clean == s.clean
    && AllAcks(s') == AllAcks(s) + Answers(DeskOf(st, i).known, heard)
    && DeskOf(next, i).known == KnownAll(DeskOf(st, i).known, heard)
    && s'.subs == SubsAll(s.subs, DeskOf(st, i).known, heard)
    && s'.recorded == Unreleased(s.recorded, heard)
    && s.out.unackedPubrels + Received(heard) == Completed(heard) + s'.out.unackedPubrels
  }

  /** A connection that waits for a wake-up of its link is made ready only by a Ready event; one that waits for
      room in its window by that or a packet that may make room. */
  ghost predicate WokenOnlyBy(a: Status, b: Status, heard: seq<Packet>, asked: bool) {
    a.Paused? && b.Ready? ==>
      || asked || IsCaughtup(a)
      || (a == Paused(InflightFull) && exists k :: 0 <= k < |heard| && Acknowledges(heard[k]))
  }

  /** What happens to it besides. */
  ghost predicate StaysInOrder(st: State, next: State, i: ConnectionId, heard: seq<Packet>, asked: bool)
    requires i in st.sess && i in next.sess
  {
    && WokenOnlyBy(st.sess[i].status, next.sess[i].status, heard, asked)
    && (MapOk(st.sess[i].subs, st.subMap, i) ==> MapOk(next.sess[i].subs, next.subMap, i))
    && (IsCaughtup(next.sess[i].status) ==>
          || next.sess[i].committed == []
          || (IsCaughtup(st.sess[i].status) && next.sess[i].committed == st.sess[i].committed))
  }

  ghost predicate SameInMap(a: map<Text, set<ConnectionId>>, b: map<Text, set<ConnectionId>>, i: ConnectionId) {
    forall f :: f in a && i in a[f] <==> f in b && i in b[f]
  }

  lemma SameGoes(st: State, next: State, i: ConnectionId)
    requires i in st.sess && i in next.sess && SameToDevice(st.sess[i], next.sess[i])
    requires SameInMap(st.subMap, next.subMap, i)
    requires WokenOnlyBy(st.sess[i].status, next.sess[i].status, [], false)
    ensures Goes(st, next, i, []) && StaysInOrder(st, next, i, [], false)
  {
    hide Acks, InRange, WokenOnlyBy;
    assert AllAcks(st.sess[i]) + [] == AllAcks(st.sess[i]);
    assert Known(st.sess[i].subs, st.subMap, i) == Known(st.sess[i].subs, next.subMap, i);
    assert st.sess[i].out.unackedPubrels + [] == [] + st.sess[i].out.unackedPubrels;
  }

  lemma OtherInMap(a: map<Text, set<ConnectionId>>, b: map<Text, set<ConnectionId>>, id: ConnectionId, i: ConnectionId)
    requires OthersKnown(a, b, id) && i != id
    ensures SameInMap(a, b, i)
  {
  }

  lemma PayloadGoes(st: State, id: ConnectionId, ps: seq<Packet>)
    requires id in st.sess && !st.panicked && !HandleDevicePayload(st, id, ps).panicked
    ensures var next := HandleDevicePayload(st, id, ps);
            id in next.sess ==> Goes(st, next, id, ps) && StaysInOrder(st, next, id, ps, false)
  {
    hide InRange, HandleDevicePayload, Known, Pkids, MapOk, AcceptsAll, Taken, Acks;
    var next, d := HandleDevicePayload(st, id, ps), DeskOf(st, id);
    PayloadIsServed(st, id, ps);
    if id in next.sess {
      KeptWithoutEnd(d, ps);
      WithoutEnd(d, ps);
      var s, s' := st.sess[id], next.sess[id];
      assert Acks(s.wire.all) + (s.committed + SaysAll(d, ps)) == Acks(s.wire.all) + s.committed + SaysAll(d, ps);
      assert s.committed + [] == s.committed;
    }
  }

  lemma {:induction false} KeptWithoutEnd(d: Desk, ps: seq<Packet>)
    requires !DisconnectsAny(d, ps)
    ensures !EndsAny(d, ps)
    decreases |ps|
  {
    hide Ends, After;
    if ps != [] {
      KeptWithoutEnd(After(d, ps[0]), ps[1..]);
    }
  }

  /** What a connection hears in a step. */
  function HeardIn(st: State, step: Step, i: ConnectionId): seq<Packet> {
    if step.Handle? && st.inbox != [] && st.inbox[0].0 == i && st.inbox[0].1.DeviceData? then
      st.inbox[0].1.packets
    else []
  }

  /** The step handles a Ready event of the connection. */
  predicate AskedIn(st: State, step: Step, i: ConnectionId) {
    step.Handle? && st.inbox != [] && st.inbox[0] == (i, LinkReady)
  }

  /** The step lets a client in under this key. */
  predicate Opens(st: State, step: Step, i: ConnectionId) {
    && step.Handle? && step.vacant == i && st.inbox != [] && st.inbox[0].1.Connect?
    && LetsIn(st, st.inbox[0].1.client)
  }

  lemma ConnectGoes(st: State, vacant: ConnectionId, client: Text, clean: bool, will: Option<Publish>, i: ConnectionId)
    requires ClientsOk(st.sess, st.byClient) && vacant !in Replaced(st, client).sess
    requires var next := HandleNewConnection(st, vacant, client, clean, will);
             i in next.sess && !(i == vacant && LetsIn(st, client))
    ensures var next := HandleNewConnection(st, vacant, client, clean, will);
            i in st.sess && Goes(st, next, i, []) && StaysInOrder(st, next, i, [], false)
  {
    hide InRange, HandleNewConnection, LetsIn, Replaced, Goes, StaysInOrder, SameToDevice, SameInMap;
    OthersStay(st, vacant, client, clean, will, i);
    SameSelf(st.sess[i]);
    SameGoes(st, HandleNewConnection(st, vacant, client, clean, will), i);
  }

  lemma ReplacedStay(st: State, client: Text, i: ConnectionId)
    requires ClientsOk(st.sess, st.byClient) && i in Replaced(st, client).sess
    ensures i in st.sess && Replaced(st, client).sess[i] == st.sess[i]
    ensures SameInMap(st.subMap, Replaced(st, client).subMap, i)
  {
    hide InRange, Replaced, OthersKnown, MapOk, SameInMap;
    ReplacedDrops(st, client);
    if client in st.byClient {
      OtherInMap(st.subMap, Replaced(st, client).subMap, st.byClient[client], i);
    } else {
      SelfInMap(st.subMap, i);
    }
  }

  lemma OthersStay(st: State, vacant: ConnectionId, client: Text, clean: bool, will: Option<Publish>, i: ConnectionId)
    requires ClientsOk(st.sess, st.byClient) && vacant !in Replaced(st, client).sess
    requires var next := HandleNewConnection(st, vacant, client, clean, will);
             i in next.sess && !(i == vacant && LetsIn(st, client))
    ensures var next := HandleNewConnection(st, vacant, client, clean, will);
            i in st.sess && next.sess[i] == st.sess[i] && SameInMap(st.subMap, next.subMap, i)
  {
    hide InRange, HandleNewConnection, LetsIn, Replaced, Started, Dropped, SameInMap, ClientsOk;
    ConnectionStarts(st, vacant, client, clean, will);
    SelfInMap(st.subMap, i);
    if i in Replaced(st, client).sess {
      ReplacedStay(st, client, i);
    }
  }

  lemma SelfInMap(a: map<Text, set<ConnectionId>>, i: ConnectionId)
    ensures SameInMap(a, a, i)
  {
  }

  lemma SameSelf(s: Session)
    ensures SameToDevice(s, s)
  {
    hide Acks;
  }

  lemma UndisturbedGoes(st: State, next: State, i: ConnectionId)
    requires i in st.sess && i in next.sess && Undisturbed(st.sess[i], next.sess[i])
    requires SameInMap(st.subMap, next.subMap, i)
    ensures Goes(st, next, i, []) && StaysInOrder(st, next, i, [], false)
  {
    hide Undisturbed, SameToDevice, Goes, StaysInOrder;
    UndisturbedIsSame(st.sess[i], next.sess[i]);
    SameGoes(st, next, i);
  }

  lemma DropGoes(st: State, id: ConnectionId, i: ConnectionId)
    requires i in HandleDisconnection(st, id).sess
    ensures var next := HandleDisconnection(st, id);
            i in st.sess && Goes(st, next, i, []) && StaysInOrder(st, next, i, [], false)
  {
    hide InRange, HandleDisconnection, Goes, StaysInOrder, MapOk, OthersKnown, SameToDevice;
    var next := HandleDisconnection(st, id);
    if id in st.sess {
      DisconnectionDrops(st, id);
      OtherInMap(st.subMap, next.subMap, id, i);
    } else {
      GoneAlready(st, id);
      SelfInMap(st.subMap, i);
    }
    SameSelf(st.sess[i]);
    SameGoes(st, next, i);
  }

  lemma GoneAlready(st: State, id: ConnectionId)
    requires id !in st.sess
    ensures HandleDisconnection(st, id) == st
  {
  }

  /** Publishing a will, and handing back what it wakes. */
  lemma WillOnlySchedules(st: State, client: Text)
    requires !HandleLastWill(st, client).panicked
    ensures var next := HandleLastWill(st, client);
            && AllUndisturbed(st.sess, next.sess) && next.subMap == st.subMap && next.grave == st.grave
            && (client in st.wills ==>
                  next.store.accepted == st.store.accepted + [st.wills[client]] && next.wills == st.wills - {client})
            && (client !in st.wills ==> next == st)
  {
    hide InRange, Drain, Accept, LookupFails, UpdateRetained, Undisturbed;
    if client in st.wills {
      var a := st.(wills := st.wills - {client});
      var b := AppendToCommitlog(a, st.wills[client]);
      AppendAccepts(a, st.wills[client]);
      DrainOnlySchedules(b);
      assert AllUndisturbed(st.sess, Drain(b).sess);
    } else {
      NothingScheduled(st);
    }
  }

  lemma AppendAccepts(st: State, p: Publish)
    ensures var st' := AppendToCommitlog(st, p);
            && st' == st.(store := st'.store, notes := st'.notes, panicked := st'.panicked)
            && (!st'.panicked ==> st'.store.accepted == st.store.accepted + [p])
  {
    hide InRange, AppendMany, Lookup, UpdateRetained, LookupFails;
  }

  lemma WillGoes(st: State, client: Text, i: ConnectionId)
    requires !HandleLastWill(st, client).panicked && i in HandleLastWill(st, client).sess
    ensures var next := HandleLastWill(st, client);
            i in st.sess && Goes(st, next, i, []) && StaysInOrder(st, next, i, [], false)
  {
    hide InRange, HandleLastWill, Goes, StaysInOrder, Undisturbed;
    WillOnlySchedules(st, client);
    SelfInMap(st.subMap, i);
    UndisturbedGoes(st, HandleLastWill(st, client), i);
  }

  lemma ScheduledGoes(st: State, next: State, i: ConnectionId)
    requires OnlyScheduled(st, next) && i in next.sess
    ensures i in st.sess && Goes(st, next, i, []) && StaysInOrder(st, next, i, [], false)
  {
    hide InRange, Goes, StaysInOrder, Undisturbed;
    SelfInMap(st.subMap, i);
    UndisturbedGoes(st, next, i);
  }

  /** A Ready event makes its connection ready, and leaves everything else alone. */
  lemma ReadyLeaves(st: State, id: ConnectionId)
    ensures var next := Reschedule(st, id, ReadyEvent);
            && next == st.(sess := next.sess, ready := next.ready, panicked := next.panicked)
            && next.sess == if id in st.sess then st.sess[id := st.sess[id].(status := Ready)] else st.sess
  {
    hide InRange, Reschedule;
    if id in st.sess {
      RescheduleIs(st, id, ReadyEvent);
    } else {
      GoneOnlyPanics(st, id, ReadyEvent);
    }
  }

  lemma ReadyGoes(st: State, id: ConnectionId, i: ConnectionId)
    requires i in Reschedule(st, id, ReadyEvent).sess
    ensures var next := Reschedule(st, id, ReadyEvent);
            i in st.sess && StaysInOrder(st, next, i, [], id == i) && Goes(st, next, i, [])
  {
    hide InRange, Reschedule, Acks;
    var next := Reschedule(st, id, ReadyEvent);
    ReadyLeaves(st, id);
    SelfInMap(st.subMap, i);
    if i != id {
      SameSelf(st.sess[i]);
      SameGoes(st, next, i);
    } else {
      assert AllAcks(st.sess[i]) + [] == AllAcks(st.sess[i]);
      assert st.sess[i].out.unackedPubrels + [] == [] + st.sess[i].out.unackedPubrels;
    }
  }

  lemma EventGoes(st: State, id: ConnectionId, vacant: ConnectionId, e: Event, i: ConnectionId)
    requires e.Connect? ==> vacant !in Replaced(st, e.client).sess
    requires ClientsOk(st.sess, st.byClient) && !st.panicked && !HandleEvent(st, id, vacant, e).panicked
    requires i in HandleEvent(st, id, vacant, e).sess && !(e.Connect? && i == vacant && LetsIn(st, e.client))
    ensures var next := HandleEvent(st, id, vacant, e);
            var heard := if e.DeviceData? && id == i then e.packets else [];
            && i in st.sess && StaysInOrder(st, next, i, heard, e.LinkReady? && id == i) && Goes(st, next, i, heard)
  {
    hide InRange, HandleNewConnection, HandleDevicePayload, HandleDisconnection, HandleLastWill, Reschedule, LetsIn,
         Goes, StaysInOrder, Replaced;
    match e
    case Connect(client, clean, will) => ConnectGoes(st, vacant, client, clean, will, i);
    case DeviceData(packets) => DataGoes(st, id, packets, i);
    case Disconnected => DropGoes(st, id, i);
    case LinkReady => ReadyGoes(st, id, i);
    case PublishWill(client) => WillGoes(st, client, i);
  }

  lemma DataGoes(st: State, id: ConnectionId, ps: seq<Packet>, i: ConnectionId)
    requires !st.panicked && !HandleDevicePayload(st, id, ps).panicked && i in HandleDevicePayload(st, id, ps).sess
    ensures var next := HandleDevicePayload(st, id, ps);
            var heard := if id == i then ps else [];
            i in st.sess && StaysInOrder(st, next, i, heard, false) && Goes(st, next, i, heard)
  {
    hide InRange, HandleDevicePayload, Goes, StaysInOrder, Undisturbed, OthersKnown, DisconnectsAny, AcceptsAll,
         SaysAll, AfterAll, Taken, DeskOf;
    var next := HandleDevicePayload(st, id, ps);
    if id in st.sess {
      PayloadIsServed(st, id, ps);
      if i == id {
        PayloadGoes(st, id, ps);
      } else {
        OtherInMap(st.subMap, next.subMap, id, i);
        UndisturbedGoes(st, next, i);
      }
    } else {
      NobodyThere(st, id, ps);
      NothingScheduled(st);
      ScheduledGoes(st, next, i);
    }
  }

  lemma NobodyThere(st: State, id: ConnectionId, ps: seq<Packet>)
    requires id !in st.sess
    ensures HandleDevicePayload(st, id, ps) == st
  {
  }

  // ---------------------------------------------------------------- keys that become vacant

  lemma SameVacant(a: map<Text, set<ConnectionId>>, b: map<Text, set<ConnectionId>>, subs: set<Text>, i: ConnectionId)
    requires SameInMap(a, b, i) && MapOk(subs, a, i)
    ensures MapOk(subs, b, i)
  {
  }

  lemma DropVacates(st: State, id: ConnectionId, i: ConnectionId)
    requires i !in HandleDisconnection(st, id).sess && MapOk(SubsOf(st.sess, i), st.subMap, i)
    ensures MapOk({}, HandleDisconnection(st, id).subMap, i)
  {
    hide InRange, HandleDisconnection, MapOk, OthersKnown;
    if id in st.sess {
      DisconnectionDrops(st, id);
      if i != id {
        OtherInMap(st.subMap, HandleDisconnection(st, id).subMap, id, i);
        SameVacant(st.subMap, HandleDisconnection(st, id).subMap, {}, i);
      }
    } else {
      GoneAlready(st, id);
    }
  }

  lemma ReplacedVacates(st: State, client: Text, i: ConnectionId)
    requires i !in Replaced(st, client).sess && MapOk(SubsOf(st.sess, i), st.subMap, i)
    ensures MapOk({}, Replaced(st, client).subMap, i)
  {
    hide InRange, HandleDisconnection, MapOk;
    if client in st.byClient {
      DropVacates(st, st.byClient[client], i);
    }
  }

  lemma ConnectVacates(st: State, vacant: ConnectionId, client: Text, clean: bool, will: Option<Publish>,
                       i: ConnectionId)
    requires ClientsOk(st.sess, st.byClient) && vacant !in Replaced(st, client).sess
    requires MapOk(SubsOf(st.sess, i), st.subMap, i)
    ensures var next := HandleNewConnection(st, vacant, client, clean, will);
            && (i !in next.sess ==> MapOk({}, next.subMap, i))
            && (i == vacant && LetsIn(st, client) ==>
                  i in next.sess && next.sess[i].status.Ready? && MapOk(next.sess[i].subs, next.subMap, i))
  {
    hide InRange, HandleNewConnection, LetsIn, Replaced, Dropped;
    var next, mid := HandleNewConnection(st, vacant, client, clean, will), Replaced(st, client);
    ConnectionStarts(st, vacant, client, clean, will);
    if i !in mid.sess {
      ReplacedVacates(st, client, i);
    }
  }

  lemma DataVacates(st: State, id: ConnectionId, ps: seq<Packet>, i: ConnectionId)
    requires !st.panicked && !HandleDevicePayload(st, id, ps).panicked && i !in HandleDevicePayload(st, id, ps).sess
    requires MapOk(SubsOf(st.sess, i), st.subMap, i)
    ensures MapOk({}, HandleDevicePayload(st, id, ps).subMap, i)
  {
    hide InRange, HandleDevicePayload, Undisturbed, OthersKnown, DisconnectsAny, AcceptsAll, SaysAll, AfterAll, Taken,
         DeskOf, MapOk;
    var next := HandleDevicePayload(st, id, ps);
    if id in st.sess {
      PayloadIsServed(st, id, ps);
      if i != id {
        OtherInMap(st.subMap, next.subMap, id, i);
        SameVacant(st.subMap, next.subMap, {}, i);
      }
    } else {
      NobodyThere(st, id, ps);
    }
  }

  lemma EventVacates(st: State, id: ConnectionId, vacant: ConnectionId, e: Event, i: ConnectionId)
    requires e.Connect? ==> vacant !in Replaced(st, e.client).sess
    requires ClientsOk(st.sess, st.byClient) && !st.panicked && !HandleEvent(st, id, vacant, e).panicked
    requires i !in HandleEvent(st, id, vacant, e).sess && MapOk(SubsOf(st.sess, i), st.subMap, i)
    ensures MapOk({}, HandleEvent(st, id, vacant, e).subMap, i)
  {
    hide InRange, HandleNewConnection, HandleDevicePayload, HandleDisconnection, HandleLastWill, Reschedule, MapOk,
         Replaced, Undisturbed;
    match e
    case Connect(client, clean, will) => ConnectVacates(st, vacant, client, clean, will, i);
    case DeviceData(packets) => DataVacates(st, id, packets, i);
    case Disconnected => DropVacates(st, id, i);
    case LinkReady => ReadyLeaves(st, id);
    case PublishWill(client) => WillOnlySchedules(st, client);
  }

  // ---------------------------------------------------------------- steps

  /** What the router has to keep to itself for its devices to be served. */
  ghost predicate Desked(st: State) { MapsOk(st) && AcksOk(st) }

  lemma HandleGoes(st: State, vacant: ConnectionId, i: ConnectionId)
    requires ClientsOk(st.sess, st.byClient) && Enabled(st, Handle(vacant)) && !Handled(st, vacant).panicked
    requires i in Handled(st, vacant).sess && !Opens(st, Handle(vacant), i)
    ensures i in st.sess
    ensures var heard, asked := HeardIn(st, Handle(vacant), i), AskedIn(st, Handle(vacant), i);
            StaysInOrder(st, Handled(st, vacant), i, heard, asked)
    ensures Goes(st, Handled(st, vacant), i, HeardIn(st, Handle(vacant), i))
  {
    hide InRange, HandleEvent, LetsIn, Replaced, Acks, Answer, MapOk;
    var (id, e) := st.inbox[0];
    EventGoes(st, id, vacant, e, i);
  }

  lemma PollGoes(st: State, i: ConnectionId)
    requires i in Consume(st).sess
    ensures i in st.sess && StaysInOrder(st, Consume(st), i, [], false) && Goes(st, Consume(st), i, [])
  {
    hide InRange, ConsumeLoop, Goes, StaysInOrder, SameToDevice, AckDeviceData;
    PollIsSame(st);
    var next := Consume(st);
    SelfInMap(st.subMap, i);
    SameGoes(st, next, i);
  }

  /** No device is told anything new, and no connection is made ready. */
  ghost predicate TellsNothing(st: State, next: State) {
    && next.sess.Keys == st.sess.Keys
    && (forall i :: i in st.sess ==>
          && SameToDevice(st.sess[i], next.sess[i])
          && (next.sess[i].status.Ready? ==> st.sess[i].status.Ready?))
    && next.subMap == st.subMap && next.wills == st.wills && next.store.accepted == st.store.accepted
    && next.grave == st.grave
  }

  lemma PolledTells(st: State, polled: State, next: State, id: ConnectionId)
    requires id in st.sess && polled.sess == st.sess[id := AckDeviceData(st.sess[id])] && PollSame(polled, next, id)
    requires polled.subMap == st.subMap && polled.wills == st.wills && polled.store == st.store
             && polled.grave == st.grave
    ensures TellsNothing(st, next)
  {
    hide InRange, SameToDevice, AckDeviceData;
    AckingIsSame(st.sess[id]);
    SameOn(st.sess[id], AckDeviceData(st.sess[id]), next.sess[id]);
    forall i | i in st.sess ensures SameToDevice(st.sess[i], st.sess[i]) {
      SameSelf(st.sess[i]);
    }
  }

  lemma StaleTells(st: State, next: State)
    requires next == st.(ready := next.ready)
    ensures TellsNothing(st, next)
  {
    hide InRange, SameToDevice;
    forall i | i in st.sess ensures SameToDevice(st.sess[i], st.sess[i]) {
      SameSelf(st.sess[i]);
    }
  }

  /** A poll does neither. */
  lemma PollIsSame(st: State)
    ensures TellsNothing(st, Consume(st))
  {
    hide InRange, ConsumeLoop, AckDeviceData, TellsNothing, PollSame;
    if st.ready != [] && st.ready[0] in st.sess {
      var id := st.ready[0];
      var polled := With(st.(ready := st.ready[1..] + [id]), id, AckDeviceData(st.sess[id]));
      AckingIsSame(st.sess[id]);
      ConsumeLoopIsSame(polled, id, MAX_SCHEDULE_ITERATIONS);
      PolledTells(st, polled, Consume(st), id);
    } else {
      StaleTells(st, Consume(st));
    }
  }

  /** A step of a link leaves everything but its own wire alone, and what was ever put there too. */
  ghost predicate LinkSame(st: State, next: State) {
    && next.sess.Keys == st.sess.Keys
    && (forall i :: i in st.sess ==>
          SameToDevice(st.sess[i], next.sess[i]) && next.sess[i].status == st.sess[i].status)
    && next.subMap == st.subMap && next.wills == st.wills && next.store == st.store && next.grave == st.grave
  }

  lemma WireIsSame(st: State, id: ConnectionId, w: Wire, inbox: seq<(ConnectionId, Event)>)
    requires id in st.sess && w.all == st.sess[id].wire.all
    ensures LinkSame(st, With(st, id, st.sess[id].(wire := w)).(inbox := inbox))
  {
    hide InRange, Acks;
  }

  lemma LinkStepIsSame(st: State, step: Step)
    requires Enabled(st, step) && !step.Handle? && !step.Poll?
    ensures LinkSame(st, Do(st, step))
  {
    hide InRange, SameToDevice, LinkSame, With;
    match step
    case Send(from, e) => SendIsSame(st, Do(st, step));
    case Build(id) =>
      var w := st.sess[id].wire;
      if w.buffer == [] || !w.buffer[0].DeviceAck? || !w.buffer[0].ack.ConnAck? {
        SendIsSame(st, Do(st, step));
      } else {
        var w' := w.(buffer := w.buffer[1..], taken := w.taken + 1, seen := |w.all|, wakes := w.wakes - 1,
                     link := Waiting);
        WireIsSame(st, id, w', st.inbox);
        InboxOf(st, id, st.sess[id].(wire := w'));
      }
    case TakeWake(id) =>
      var w' := st.sess[id].wire.(wakes := st.sess[id].wire.wakes - 1, link := Woken);
      WireIsSame(st, id, w', st.inbox);
      InboxOf(st, id, st.sess[id].(wire := w'));
    case Exchange(id) =>
      var w := st.sess[id].wire;
      var w' := w.(buffer := [], taken := |w.all|, seen := |w.all|, link := Writing(Unschedule in w.buffer));
      WireIsSame(st, id, w', st.inbox);
      InboxOf(st, id, st.sess[id].(wire := w'));
    case Written(id) =>
      WireIsSame(st, id, st.sess[id].wire.(link := Waiting), Do(st, step).inbox);
  }

  lemma InboxOf(st: State, id: ConnectionId, s: Session)
    ensures With(st, id, s).(inbox := st.inbox) == With(st, id, s)
  {
    hide InRange;
  }

  lemma SendIsSame(st: State, next: State)
    requires next.sess == st.sess && next.subMap == st.subMap && next.wills == st.wills && next.store == st.store
    requires next.grave == st.grave
    ensures LinkSame(st, next)
  {
    hide InRange, Acks;
  }

  lemma StepGoes(st: State, step: Step, i: ConnectionId)
    requires ClientsOk(st.sess, st.byClient) && Enabled(st, step) && !Do(st, step).panicked
    requires i in Do(st, step).sess && !Opens(st, step, i)
    ensures i in st.sess && Goes(st, Do(st, step), i, HeardIn(st, step, i))
    ensures StaysInOrder(st, Do(st, step), i, HeardIn(st, step, i), AskedIn(st, step, i))
  {
    hide InRange, Handled, Consume, BuildLink, TakeWakeUp, ExchangeBuffer, WrittenOut, Goes, StaysInOrder, SameToDevice;
    match step
    case Handle(vacant) => HandleGoes(st, vacant, i);
    case Poll => PollGoes(st, i);
    case _ =>
      LinkStepIsSame(st, step);
      SelfInMap(st.subMap, i);
      SameGoes(st, Do(st, step), i);
  }
}
