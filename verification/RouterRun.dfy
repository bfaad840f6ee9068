/** Runs of the router and the links of its connections, and what every run keeps. */
module RouterRun {
  import opened Basics
  import opened RouterTypes
  import opened StoreSpec
  import opened WindowSpec
  import opened RouterSpec
  import opened RouterInv
  import opened RouterSchedule
  import opened RouterBatch
  import opened RouterSessions
  import opened RouterForward
  import opened RouterConsume
  import opened RouterOnward

  /** The router handles the next event, or polls its ready queue; devices and links send events; the
      link of a connection is built, takes a wake-up, takes the buffer, and has written what it took. */
  datatype Step =
    | Handle(vacant: ConnectionId) | Poll
    | Send(from: ConnectionId, event: Event)
    | Build(id: ConnectionId) | TakeWake(id: ConnectionId) | Exchange(id: ConnectionId) | Written(id: ConnectionId)

  // ---------------------------------------------------------------- links

  /** The builder of a link takes the first notification, which is to be the connection acknowledgement. */
  function BuildLink(st: State, id: ConnectionId): State
    requires id in st.sess && st.sess[id].wire.wakes >= 1
  {
    var s := st.sess[id];
    var w := s.wire;
    if w.buffer == [] || !w.buffer[0].DeviceAck? || !w.buffer[0].ack.ConnAck? then Panic(st)
    else
      With(st, id, s.(wire := w.(buffer := w.buffer[1..], taken := w.taken + 1, seen := |w.all|, wakes := w.wakes - 1,
                                 link := Waiting)))
  }

  function TakeWakeUp(st: State, id: ConnectionId): State
    requires id in st.sess && st.sess[id].wire.wakes >= 1
  {
    var s := st.sess[id];
    With(st, id, s.(wire := s.wire.(wakes := s.wire.wakes - 1, link := Woken)))
  }

  function ExchangeBuffer(st: State, id: ConnectionId): State
    requires id in st.sess
  {
    var s := st.sess[id];
    var w := s.wire;
    With(st, id, s.(wire := w.(buffer := [], taken := |w.all|, seen := |w.all|,
                               link := Writing(Unschedule in w.buffer))))
  }

  /** The link asks to be scheduled again if it was unscheduled. */
  function WrittenOut(st: State, id: ConnectionId): State
    requires id in st.sess && st.sess[id].wire.link.Writing?
  {
    var s := st.sess[id];
    With(st, id, s.(wire := s.wire.(link := Waiting))).(
      inbox := if s.wire.link.unscheduled then st.inbox + [(id, LinkReady)] else st.inbox)
  }

  // ---------------------------------------------------------------- steps

  ghost predicate Enabled(st: State, step: Step) {
    && !st.panicked
    && match step
       case Handle(vacant) =>
         && st.inbox != []
         && (st.inbox[0].1.Connect? ==> vacant !in Replaced(st, st.inbox[0].1.client).sess)
       case Poll => true
       case Send(from, e) => true
       case Build(id) => id in st.sess && st.sess[id].wire.link.Building? && st.sess[id].wire.wakes >= 1
       case TakeWake(id) => id in st.sess && st.sess[id].wire.link.Waiting? && st.sess[id].wire.wakes >= 1
       case Exchange(id) => id in st.sess && st.sess[id].wire.link.Woken?
       case Written(id) => id in st.sess && st.sess[id].wire.link.Writing?
  }

  function Handled(st: State, vacant: ConnectionId): State
    requires st.inbox != []
    requires st.inbox[0].1.Connect? ==> vacant !in Replaced(st, st.inbox[0].1.client).sess
  {
    HandleEvent(st, st.inbox[0].0, vacant, st.inbox[0].1).(inbox := st.inbox[1..])
  }

  ghost function Do(st: State, step: Step): State
    requires Enabled(st, step)
  {
    match step
    case Handle(vacant) => Handled(st, vacant)
    case Poll => Consume(st)
    case Send(from, e) => st.(inbox := st.inbox + [(from, e)])
    case Build(id) => BuildLink(st, id)
    case TakeWake(id) => TakeWakeUp(st, id)
    case Exchange(id) => ExchangeBuffer(st, id)
    case Written(id) => WrittenOut(st, id)
  }

  /** The events this model speaks about: no shared subscriptions, and no Unsubscribe after a publish in
      the same batch. */
  ghost predicate EventInScope(e: Event) {
    e.DeviceData? ==> UnsubscribesFirst(e.packets) && forall k :: 0 <= k < |e.packets| ==> NamesNoGroup(e.packets[k])
  }

  ghost predicate NamesNoGroup(p: Packet) {
    p.SubscribePacket? ==> forall i :: 0 <= i < |p.filters| ==> !NamesGroup(p.filters[i].path)
  }

  ghost predicate InboxOk(inbox: seq<(ConnectionId, Event)>) {
    forall k :: 0 <= k < |inbox| ==> EventInScope(inbox[k].1)
  }

  ghost predicate StepInScope(step: Step) {
    step.Send? ==> EventInScope(step.event)
  }

  /** Handling the event makes the router panic: it asks to schedule a connection that is gone, or has
      a publish accepted whose topic cannot be compared with a filter there is. */
  predicate EventFails(st: State, id: ConnectionId, e: Event) {
    match e
    case LinkReady => id !in st.sess
    case DeviceData(packets) => PayloadFails(st, id, packets)
    case PublishWill(client) => WillFails(st, client)
    case _ => false
  }

  /** The step makes the router panic: it handles such an event, or polls a connection that is owed
      retained messages while there is one whose topic cannot be compared. */
  predicate StepFails(st: State, step: Step) {
    match step
    case Handle(vacant) => st.inbox != [] && EventFails(st, st.inbox[0].0, st.inbox[0].1)
    case Poll => PollFails(st)
    case _ => false
  }

  ghost predicate Good(st: State) { Inv(st) && InboxOk(st.inbox) }

  // ---------------------------------------------------------------- link steps keep the invariant

  /** A link step changes nothing the requests depend on. */
  lemma WireKeepsGood(st: State, id: ConnectionId, w: Wire, inbox: seq<(ConnectionId, Event)>)
    requires Good(st) && id in st.sess
    requires var s' := st.sess[id].(wire := w);
             WireOk(s') && ReadyOk(st.sess[id := s'], st.ready, inbox) && InboxOk(inbox)
    ensures Good(With(st, id, st.sess[id].(wire := w)).(inbox := inbox))
  {
    hide WireOk, ReadyOk, InboxOk;
    var s' := st.sess[id].(wire := w);
    assert ReadyOk(st.sess[id := s'], st.ready, inbox);
    InboxKeepsCore(st, id, s', inbox);
    ContinuesWith(st.sess, id, s');
    hide Core;
    OnwardKeepsInv(st, With(st, id, s').(inbox := inbox));
  }

  lemma InboxKeepsCore(st: State, id: ConnectionId, s': Session, inbox: seq<(ConnectionId, Event)>)
    requires Core(st) && id in st.sess && SameReading(st.sess[id], s') && s'.status == st.sess[id].status
    requires WireOk(s') && ReadyOk(st.sess[id := s'], st.ready, inbox)
    ensures Core(With(st, id, s').(inbox := inbox))
  {
    hide WireOk, ReadyOk, OutOk, TokenOk, CountOk, StoreOk, WaiterOk, SavedOk;
    var s := st.sess[id];
    assert SessionOk(st.store.logs, s);
    forall k | 0 <= k < |s'.reqs| ensures TokenOf(st.store.logs, s', s'.reqs[k]) {
      assert TokenOf(st.store.logs, s, s.reqs[k]);
    }
    SessionReplaced(st.store, st.sess, st.notes, id, s');
    forall f | f in s'.subs ensures CountOk(st.store, s', st.notes, id, f) {
      assert CountOk(st.store, s, st.notes, id, f);
      SameCount(st.store, s, s', st.notes, id, f);
    }
    CountsReplaced(st.store, st.sess, st.notes, id, s');
    OriginsWith(st.store, st.sess, st.grave, id, s');
  }

  lemma SameCount(store: Store, s: Session, s': Session, notes: seq<Waiter>, id: ConnectionId, f: Text)
    requires CountOk(store, s, notes, id, f) && s'.reqs == s.reqs
    ensures CountOk(store, s', notes, id, f)
  {
  }

  lemma OthersQueued(sess: map<ConnectionId, Session>, ready: seq<ConnectionId>, inbox: seq<(ConnectionId, Event)>,
                     id: ConnectionId, s': Session, inbox': seq<(ConnectionId, Event)>)
    requires ReadyOk(sess, ready, inbox) && id in sess && inbox <= inbox'
    requires QueuedOk(s', id, ready, inbox')
    ensures ReadyOk(sess[id := s'], ready, inbox')
  {
    var sess' := sess[id := s'];
    forall i | i in sess' ensures QueuedOk(sess'[i], i, ready, inbox') {
      if i != id {
        assert QueuedOk(sess[i], i, ready, inbox);
      }
    }
  }

  lemma SessionAt(st: State, id: ConnectionId)
    requires Inv(st) && id in st.sess
    ensures WireOk(st.sess[id]) && QueuedOk(st.sess[id], id, st.ready, st.inbox)
  {
    hide StoreOk, WaitersOk, CountsOk, OutOk, TokenOf, GraveOk, QueuedOk, WireOk;
    assert SessionOk(st.store.logs, st.sess[id]);
  }

  /** What the builder of a link finds is the connection acknowledgement. */
  lemma BuildKeepsGood(st: State, id: ConnectionId)
    requires Good(st) && Enabled(st, Build(id))
    ensures Good(Do(st, Build(id)))
  {
    hide Core, InboxOk, AllFull, ClientsOk;
    SessionAt(st, id);
    var w := st.sess[id].wire;
    var w' := w.(buffer := w.buffer[1..], taken := w.taken + 1, seen := |w.all|, wakes := w.wakes - 1, link := Waiting);
    var s' := st.sess[id].(wire := w');
    assert w'.buffer == w.all[w'.taken..];
    assert Unschedule in w.buffer ==> Unschedule in w'.buffer;
    ReadyAt(st);
    OthersQueued(st.sess, st.ready, st.inbox, id, s', st.inbox);
    WireKeepsGood(st, id, w', st.inbox);
  }

  lemma ReadyAt(st: State)
    requires Inv(st)
    ensures ReadyOk(st.sess, st.ready, st.inbox)
  {
  }

  lemma TakeKeepsGood(st: State, id: ConnectionId)
    requires Good(st) && Enabled(st, TakeWake(id))
    ensures Good(Do(st, TakeWake(id)))
  {
    hide Core, InboxOk, AllFull, ClientsOk;
    SessionAt(st, id);
    var w := st.sess[id].wire;
    var w' := w.(wakes := w.wakes - 1, link := Woken);
    ReadyAt(st);
    OthersQueued(st.sess, st.ready, st.inbox, id, st.sess[id].(wire := w'), st.inbox);
    WireKeepsGood(st, id, w', st.inbox);
  }

  lemma ExchangeKeepsGood(st: State, id: ConnectionId)
    requires Good(st) && Enabled(st, Exchange(id))
    ensures Good(Do(st, Exchange(id)))
  {
    hide Core, InboxOk, AllFull, ClientsOk;
    SessionAt(st, id);
    var w := st.sess[id].wire;
    var w' := w.(buffer := [], taken := |w.all|, seen := |w.all|, link := Writing(Unschedule in w.buffer));
    ReadyAt(st);
    OthersQueued(st.sess, st.ready, st.inbox, id, st.sess[id].(wire := w'), st.inbox);
    WireKeepsGood(st, id, w', st.inbox);
  }

  lemma WrittenKeepsGood(st: State, id: ConnectionId)
    requires Good(st) && Enabled(st, Written(id))
    ensures Good(Do(st, Written(id)))
  {
    hide Core, AllFull, ClientsOk;
    SessionAt(st, id);
    var w := st.sess[id].wire;
    var w' := w.(link := Waiting);
    var inbox := if w.link.unscheduled then st.inbox + [(id, LinkReady)] else st.inbox;
    assert w.link.unscheduled ==> inbox[|st.inbox|] == (id, LinkReady);
    ReadyAt(st);
    OthersQueued(st.sess, st.ready, st.inbox, id, st.sess[id].(wire := w'), inbox);
    WireKeepsGood(st, id, w', inbox);
  }

  lemma SendKeepsGood(st: State, from: ConnectionId, e: Event)
    requires Good(st) && EventInScope(e)
    ensures Good(st.(inbox := st.inbox + [(from, e)]))
  {
    hide StoreOk, SessionsOk, WaitersOk, CountsOk, GraveOk, AllFull, ClientsOk;
    var inbox := st.inbox + [(from, e)];
    forall i | i in st.sess ensures QueuedOk(st.sess[i], i, st.ready, inbox) {
      assert QueuedOk(st.sess[i], i, st.ready, st.inbox);
    }
    forall k | 0 <= k < |inbox| ensures EventInScope(inbox[k].1) {
      if k < |st.inbox| {
        assert EventInScope(st.inbox[k].1);
      }
    }
  }

  // ---------------------------------------------------------------- handling keeps the invariant

  lemma LinkReadyKeepsCore(st: State, id: ConnectionId)
    requires Inv(st) && id in st.sess
    ensures Inv(Reschedule(st, id, ReadyEvent)) && Reschedule(st, id, ReadyEvent).sess[id].status.Ready?
  {
    hide Core;
    RescheduleKeepsCore(st, id, ReadyEvent);
    RescheduleKeepsFull(st, id, ReadyEvent);
    OnwardKeepsInv(st, Reschedule(st, id, ReadyEvent));
  }

  /** Each event keeps the invariant while it is still in the inbox. */
  lemma EventKeepsInv(st: State, id: ConnectionId, vacant: ConnectionId, e: Event)
    requires Inv(st) && EventInScope(e) && !EventFails(st, id, e)
    requires e.Connect? ==> vacant !in Replaced(st, e.client).sess
    ensures Inv(HandleEvent(st, id, vacant, e))
  {
    hide Core, AllFull, ClientsOk, HandleNewConnection, HandleDevicePayload, HandleDisconnection, HandleLastWill,
         Reschedule, PayloadFails, WillFails;
    match e
    case Connect(client, clean, will) => NewConnectionKeepsInv(st, vacant, client, clean, will);
    case DeviceData(packets) => PayloadKeepsInv(st, id, packets);
    case Disconnected => DropKeepsInv(st, id);
    case LinkReady => LinkReadyKeepsCore(st, id);
    case PublishWill(client) => LastWillKeepsInv(st, client);
  }

  lemma DropKeepsInv(st: State, id: ConnectionId)
    requires Inv(st)
    ensures Inv(HandleDisconnection(st, id))
  {
    hide Core;
    DisconnectionKeepsInv(st, id);
  }

  /** An event that has been handled is no longer a wake-up that anybody waits for. */
  lemma InboxShrinks(sess: map<ConnectionId, Session>, ready: seq<ConnectionId>, inbox: seq<(ConnectionId, Event)>)
    requires ReadyOk(sess, ready, inbox) && inbox != []
    requires inbox[0].1.LinkReady? && inbox[0].0 in sess ==> sess[inbox[0].0].status.Ready?
    ensures ReadyOk(sess, ready, inbox[1..])
  {
    var rest := inbox[1..];
    forall i | i in sess ensures QueuedOk(sess[i], i, ready, rest) {
      assert QueuedOk(sess[i], i, ready, inbox);
      if (i, LinkReady) in inbox && inbox[0] != (i, LinkReady) {
        var k :| 0 <= k < |inbox| && inbox[k] == (i, LinkReady);
        assert rest[k - 1] == (i, LinkReady);
      }
    }
  }

  lemma HandledGood(st: State, rest: seq<(ConnectionId, Event)>)
    requires Inv(st) && ReadyOk(st.sess, st.ready, rest) && InboxOk(rest)
    ensures Good(st.(inbox := rest))
  {
    hide StoreOk, SessionsOk, WaitersOk, CountsOk, GraveOk, AllFull, ClientsOk, ReadyOk, OriginsOk;
  }

  lemma FewerEvents(inbox: seq<(ConnectionId, Event)>)
    requires InboxOk(inbox) && inbox != []
    ensures InboxOk(inbox[1..]) && EventInScope(inbox[0].1)
  {
    hide EventInScope;
    var rest := inbox[1..];
    forall k | 0 <= k < |rest| ensures EventInScope(rest[k].1) {
      assert EventInScope(inbox[k + 1].1);
    }
  }

  lemma HandleKeepsGood(st: State, vacant: ConnectionId)
    requires Good(st) && Enabled(st, Handle(vacant)) && !StepFails(st, Handle(vacant))
    ensures Good(Handled(st, vacant))
  {
    hide Core, AllFull, ClientsOk, InboxOk, HandleNewConnection, HandleDevicePayload, HandleDisconnection,
         HandleLastWill, PayloadFails, WillFails;
    var (id, e) := st.inbox[0];
    var st' := HandleEvent(st, id, vacant, e);
    FewerEvents(st.inbox);
    EventKeepsInv(st, id, vacant, e);
    EventLeaves(st, id, vacant, e);
    if e.LinkReady? {
      LinkReadyKeepsCore(st, id);
    }
    ReadyAt(st');
    HeadIsHandled(st, id, vacant, e);
    InboxShrinks(st'.sess, st'.ready, st'.inbox);
    HandledGood(st', st.inbox[1..]);
  }

  lemma HeadIsHandled(st: State, id: ConnectionId, vacant: ConnectionId, e: Event)
    requires Inv(st) && st.inbox != [] && st.inbox[0] == (id, e) && (e.LinkReady? ==> id in st.sess)
    requires e.Connect? ==> vacant !in Replaced(st, e.client).sess
    ensures var sess := HandleEvent(st, id, vacant, e).sess;
            st.inbox[0].1.LinkReady? && st.inbox[0].0 in sess ==> sess[st.inbox[0].0].status.Ready?
  {
    hide Core, AllFull, ClientsOk, HandleNewConnection, HandleDevicePayload, HandleDisconnection, HandleLastWill;
    if e.LinkReady? {
      LinkReadyKeepsCore(st, id);
    }
  }

  // ---------------------------------------------------------------- runs

  lemma StepKeepsGood(st: State, step: Step)
    requires Good(st) && Enabled(st, step) && StepInScope(step) && !StepFails(st, step)
    ensures Good(Do(st, step))
  {
    hide Core, AllFull, ClientsOk, InboxOk, Handled, Consume, BuildLink, TakeWakeUp, ExchangeBuffer, WrittenOut,
         EventFails, PollFails;
    match step
    case Handle(vacant) => HandleKeepsGood(st, vacant);
    case Poll => PollKeepsGood(st);
    case Send(from, e) => SendKeepsGood(st, from, e);
    case Build(id) => BuildKeepsGood(st, id);
    case TakeWake(id) => TakeKeepsGood(st, id);
    case Exchange(id) => ExchangeKeepsGood(st, id);
    case Written(id) => WrittenKeepsGood(st, id);
  }

  lemma PollKeepsGood(st: State)
    requires Good(st) && !PollFails(st)
    ensures Good(Consume(st))
  {
    hide Inv, InboxOk, Consume, StoreExtends, PollFails;
    ConsumeKeepsInv(st);
    ConsumeLeaves(st);
  }

  lemma EventPanics(st: State, id: ConnectionId, vacant: ConnectionId, e: Event)
    requires EventFails(st, id, e)
    ensures HandleEvent(st, id, vacant, e).panicked
  {
    hide HandleNewConnection, HandleDevicePayload, HandleDisconnection, HandleLastWill, PayloadFails, WillFails;
    match e
    case LinkReady =>
    case DeviceData(packets) => PayloadPanics(st, id, packets);
    case PublishWill(client) => WillPanics(st, client);
  }

  lemma StepPanics(st: State, step: Step)
    requires Enabled(st, step) && StepFails(st, step)
    ensures Do(st, step).panicked
  {
    hide HandleEvent, Consume, EventFails, PollFails;
    match step
    case Handle(vacant) => EventPanics(st, st.inbox[0].0, vacant, st.inbox[0].1);
    case Poll => PollPanics(st);
  }

  /** A step makes the router panic in exactly these cases; in all others it keeps the router in order, so
      that no assertion fails, nothing missing is unwrapped, and every link finds its acknowledgement. */
  lemma PanicsExactly(st: State, step: Step)
    requires Good(st) && Enabled(st, step) && StepInScope(step)
    ensures Do(st, step).panicked <==> StepFails(st, step)
  {
    hide Good, Do, StepFails, Enabled, StepInScope;
    if StepFails(st, step) {
      StepPanics(st, step);
    } else {
      StepKeepsGood(st, step);
      NotPanicked(Do(st, step));
    }
  }

  lemma NotPanicked(st: State)
    requires Good(st)
    ensures !st.panicked
  {
  }

  /** `last` is reached from `st` by steps in scope, the router running all the way. */
  ghost predicate Run(st: State, steps: seq<Step>, last: State)
    decreases |steps|
  {
    if steps == [] then last == st
    else Enabled(st, steps[0]) && StepInScope(steps[0]) && Run(Do(st, steps[0]), steps[1..], last)
  }

  lemma PanicIsFinal(st: State, steps: seq<Step>, last: State)
    requires Run(st, steps, last) && !last.panicked
    ensures !st.panicked
  {
  }

  lemma InitialGood(maxSegmentSize: nat, maxSegments: nat, cfg: Config)
    requires maxSegmentSize >= 1024 && maxSegments >= 1 && cfg.maxOutgoing >= 1
    ensures Good(Initial(maxSegmentSize, maxSegments, cfg))
  {
  }

  /** Every state of every run in which the router has not panicked is in order. */
  lemma {:induction false} RunsAreGood(st: State, steps: seq<Step>, last: State)
    requires Good(st) && Run(st, steps, last) && !last.panicked
    ensures Good(last)
    decreases |steps|
  {
    hide Good, Do, StepFails;
    if steps != [] {
      var next := Do(st, steps[0]);
      PanicIsFinal(next, steps[1..], last);
      PanicsExactly(st, steps[0]);
      StepKeepsGood(st, steps[0]);
      RunsAreGood(next, steps[1..], last);
    }
  }

  /** `st` is reached by some run of a router that was started with some limits, and has not panicked. */
  ghost predicate Reachable(st: State) {
    !st.panicked && Reached(st)
  }

  ghost predicate Reached(st: State) {
    exists size: nat, count: nat, cfg: Config, steps: seq<Step> :: ReachedBy(size, count, cfg, steps, st)
  }

  ghost predicate ReachedBy(size: nat, count: nat, cfg: Config, steps: seq<Step>, st: State) {
    size >= 1024 && count >= 1 && cfg.maxOutgoing >= 1 && Run(Initial(size, count, cfg), steps, st)
  }

  lemma {:induction false} RunOn(st: State, steps: seq<Step>, mid: State, step: Step)
    requires Run(st, steps, mid) && Enabled(mid, step) && StepInScope(step)
    ensures Run(st, steps + [step], Do(mid, step))
    decreases |steps|
  {
    hide Enabled, Do, StepInScope;
    if steps == [] {
      assert ([] + [step])[1..] == [] && steps + [step] == [step];
    } else {
      RunOn(Do(st, steps[0]), steps[1..], mid, step);
      assert (steps + [step])[1..] == steps[1..] + [step];
    }
  }

  /** Every step leads on from what has been reached. */
  lemma ReachedOn(st: State, step: Step)
    requires Reached(st) && Enabled(st, step) && StepInScope(step)
    ensures Reached(Do(st, step))
  {
    hide Run, Initial, Enabled, Do, StepInScope;
    var size: nat, count: nat, cfg: Config, steps: seq<Step> :| ReachedBy(size, count, cfg, steps, st);
    RunOn(Initial(size, count, cfg), steps, st, step);
    assert ReachedBy(size, count, cfg, steps + [step], Do(st, step));
  }

  lemma ReachableIsGood(st: State)
    requires Reachable(st)
    ensures Good(st)
  {
    hide Good, Run, Initial;
    var size: nat, count: nat, cfg: Config, steps: seq<Step> :| ReachedBy(size, count, cfg, steps, st);
    InitialGood(size, count, cfg);
    RunsAreGood(Initial(size, count, cfg), steps, st);
  }
}
