/** What devices are answered, and what the broker accepts from them, over whole runs. */
module RouterReplies {
  import opened Basics
  import opened RouterTypes
  import opened StoreSpec
  import opened WindowSpec
  import opened RouterSpec
  import opened RouterInv
  import opened RouterRun
  import opened DeviceSpec
  import opened RouterDevice
  import opened RouterDesk
  import opened RouterLife

  // ---------------------------------------------------------------- what every step keeps

  lemma StepVacates(st: State, step: Step, i: ConnectionId)
    requires ClientsOk(st.sess, st.byClient) && Enabled(st, step) && !Do(st, step).panicked
    requires i !in Do(st, step).sess && MapOk(SubsOf(st.sess, i), st.subMap, i)
    ensures MapOk({}, Do(st, step).subMap, i)
  {
    hide InRange, HandleEvent, Consume, MapOk, SameToDevice, BuildLink, TakeWakeUp, ExchangeBuffer, WrittenOut;
    match step
    case Handle(vacant) => EventVacates(st, st.inbox[0].0, vacant, st.inbox[0].1, i);
    case Poll => PollIsSame(st);
    case _ => LinkStepIsSame(st, step);
  }

  lemma StepOpens(st: State, step: Step, i: ConnectionId)
    requires ClientsOk(st.sess, st.byClient) && Enabled(st, step) && Opens(st, step, i)
    requires MapOk(SubsOf(st.sess, i), st.subMap, i)
    ensures var next := Do(st, step);
            i in next.sess && next.sess[i].status.Ready? && MapOk(next.sess[i].subs, next.subMap, i)
  {
    hide InRange, HandleNewConnection, LetsIn, MapOk, Replaced;
    var e := st.inbox[0].1;
    ConnectVacates(st, i, e.client, e.clean, e.will, i);
  }

  lemma StepKeepsDesked(st: State, step: Step)
    requires ClientsOk(st.sess, st.byClient) && Desked(st) && Enabled(st, step) && !Do(st, step).panicked
    ensures Desked(Do(st, step))
  {
    hide InRange, Do, Opens, MapOk, Goes, Enabled, HeardIn;
    var next := Do(st, step);
    forall i
      ensures MapOk(SubsOf(next.sess, i), next.subMap, i)
      ensures i in next.sess && IsCaughtup(next.sess[i].status) ==> next.sess[i].committed == []
    {
      assert MapOk(SubsOf(st.sess, i), st.subMap, i);
      if i !in next.sess {
        StepVacates(st, step, i);
      } else if Opens(st, step, i) {
        StepOpens(st, step, i);
      } else {
        StepGoes(st, step, i);
      }
    }
  }

  lemma GoodClients(st: State)
    requires Good(st)
    ensures ClientsOk(st.sess, st.byClient) && !st.panicked
  {
  }

  /** A run goes on from a state in order to another: one step of it. */
  lemma RunStep(st: State, steps: seq<Step>, last: State)
    requires Good(st) && Run(st, steps, last) && !last.panicked && steps != []
    ensures Enabled(st, steps[0]) && Good(Do(st, steps[0])) && !Do(st, steps[0]).panicked
    ensures Run(Do(st, steps[0]), steps[1..], last)
    ensures ClientsOk(st.sess, st.byClient)
  {
    hide Good, Do, StepFails, Enabled, StepInScope;
    PanicIsFinal(Do(st, steps[0]), steps[1..], last);
    PanicsExactly(st, steps[0]);
    StepKeepsGood(st, steps[0]);
    GoodClients(st);
  }

  lemma {:induction false} RunsKeepDesked(st: State, steps: seq<Step>, last: State)
    requires Good(st) && Desked(st) && Run(st, steps, last) && !last.panicked
    ensures Desked(last)
    decreases |steps|
  {
    hide Good, Do, Desked, Enabled, StepInScope, ClientsOk;
    if steps != [] {
      RunStep(st, steps, last);
      StepKeepsDesked(st, steps[0]);
      RunsKeepDesked(Do(st, steps[0]), steps[1..], last);
    }
  }

  lemma ReachableIsDesked(st: State)
    requires Reachable(st)
    ensures Desked(st)
  {
    hide Good, Run;
    var size: nat, count: nat, cfg: Config, steps: seq<Step> :| ReachedBy(size, count, cfg, steps, st);
    InitialGood(size, count, cfg);
    RunsKeepDesked(Initial(size, count, cfg), steps, st);
  }

  // ---------------------------------------------------------------- the life of a connection

  /** The connection is there all along the run, and is the same all along. */
  ghost predicate Lives(st: State, steps: seq<Step>, i: ConnectionId)
    decreases |steps|
  {
    && i in st.sess
    && (steps != [] ==>
          Enabled(st, steps[0]) && !Opens(st, steps[0], i) && Lives(Do(st, steps[0]), steps[1..], i))
  }

  /** The packets the router handles from it, in order. */
  ghost function Heard(st: State, steps: seq<Step>, i: ConnectionId): seq<Packet>
    requires Lives(st, steps, i)
    decreases |steps|
  {
    if steps == [] then [] else HeardIn(st, steps[0], i) + Heard(Do(st, steps[0]), steps[1..], i)
  }

  lemma GoesOn(a: State, b: State, c: State, i: ConnectionId, p: seq<Packet>, q: seq<Packet>)
    requires i in a.sess && i in b.sess && i in c.sess && Goes(a, b, i, p) && Goes(b, c, i, q)
    ensures Goes(a, c, i, p + q)
  {
    hide AllAcks, Known, Pkids, Answers, KnownAll, SubsAll, Unreleased, Received, Completed;
    SubsJoin(a.sess[i].subs, DeskOf(a, i).known, p, q);
    AnswersJoin(DeskOf(a, i).known, p, q);
    UnreleasedJoin(a.sess[i].recorded, p, q);
    ReceivedJoin(p, q);
    CompletedJoin(p, q);
    ReleasesOn(a.sess[i].out.unackedPubrels, b.sess[i].out.unackedPubrels, c.sess[i].out.unackedPubrels, Received(p),
               Received(q), Completed(p), Completed(q));
    var k := DeskOf(a, i).known;
    assert AllAcks(a.sess[i]) + Answers(k, p) + Answers(KnownAll(k, p), q)
           == AllAcks(a.sess[i]) + (Answers(k, p) + Answers(KnownAll(k, p), q));
  }

  lemma ReleasesOn(a: seq<PacketId>, b: seq<PacketId>, c: seq<PacketId>, r: seq<PacketId>, r': seq<PacketId>,
                   d: seq<PacketId>, d': seq<PacketId>)
    requires a + r == d + b && b + r' == d' + c
    ensures a + (r + r') == d + d' + c
  {
    calc {
      a + (r + r');
      a + r + r';
      d + b + r';
      d + (b + r');
      d + (d' + c);
      d + d' + c;
    }
  }

  /** All along its life, a connection is served as its device may expect. */
  lemma {:induction false} LifeGoes(st: State, steps: seq<Step>, last: State, i: ConnectionId)
    requires Good(st) && Run(st, steps, last) && !last.panicked && Lives(st, steps, i)
    ensures i in last.sess && Goes(st, last, i, Heard(st, steps, i))
    decreases |steps|
  {
    hide Good, Do, Enabled, StepInScope, ClientsOk, Goes, StaysInOrder, Opens, HeardIn;
    if steps == [] {
      NothingGoes(st, i);
    } else {
      var next := Do(st, steps[0]);
      RunStep(st, steps, last);
      assert i in next.sess by { LivesNow(next, steps[1..], i); }
      StepGoes(st, steps[0], i);
      LifeGoes(next, steps[1..], last, i);
      GoesOn(st, next, last, i, HeardIn(st, steps[0], i), Heard(next, steps[1..], i));
    }
  }

  lemma LivesNow(st: State, steps: seq<Step>, i: ConnectionId)
    requires Lives(st, steps, i)
    ensures i in st.sess
  {
  }

  lemma NothingGoes(st: State, i: ConnectionId)
    requires i in st.sess
    ensures Goes(st, st, i, [])
  {
    hide Goes, SameToDevice, StaysInOrder;
    SameSelf(st.sess[i]);
    SelfInMap(st.subMap, i);
    SameGoes(st, st, i);
  }

  /** The connection was let in by the first of these steps, from a state that can be reached, and has lived
      since. */
  ghost predicate Since(a: State, steps: seq<Step>, st: State, i: ConnectionId) {
    && Reachable(a) && steps != [] && Enabled(a, steps[0]) && StepInScope(steps[0]) && Opens(a, steps[0], i)
    && Run(Do(a, steps[0]), steps[1..], st) && Lives(Do(a, steps[0]), steps[1..], i)
  }

  /** What the connection started with, what it has heard since, and how it stands. */
  ghost predicate Accounts(a: State, steps: seq<Step>, st: State, i: ConnectionId)
    requires Since(a, steps, st, i)
  {
    var e := a.inbox[0].1;
    var mid, heard := Replaced(a, e.client), Heard(Do(a, steps[0]), steps[1..], i);
    && i in st.sess && st.sess[i].client == e.client && st.sess[i].clean == e.clean
    && st.sess[i].recorded == Unreleased([], heard)
    && if !e.clean && e.client in mid.grave then
         var releases := mid.grave[e.client].unackedPubrels;
         && (exists greeting :: Greeting(greeting, releases) && AllAcks(st.sess[i]) == greeting + Answers({}, heard))
         && releases + Received(heard) == Completed(heard) + st.sess[i].out.unackedPubrels
         && st.sess[i].subs == SubsAll(mid.grave[e.client].subs, {}, heard)
       else
         && AllAcks(st.sess[i]) == [ConnAck(false)] + Answers({}, heard)
         && Received(heard) == Completed(heard) + st.sess[i].out.unackedPubrels
         && st.sess[i].subs == SubsAll({}, {}, heard)
  }

  lemma OpenedKnowsNothing(st: State, i: ConnectionId)
    requires i in st.sess && MapOk({}, st.subMap, i)
    ensures DeskOf(st, i).known == {}
  {
    hide Pkids;
  }

  /** How a connection stands when it has just been let in. */
  lemma OpenedStands(a: State, step: Step, i: ConnectionId)
    requires Reachable(a) && Enabled(a, step) && Opens(a, step, i)
    ensures var e, next := a.inbox[0].1, Do(a, step);
            && i in next.sess && Started(Replaced(a, e.client), next.sess[i], e.client, e.clean)
            && DeskOf(next, i).known == {}
  {
    hide Reachable, Replaced, LetsIn, Started, Good, HandleNewConnection, Dropped, InRange;
    ReachableIsGood(a);
    GoodClients(a);
    ReachableIsDesked(a);
    var e, next := a.inbox[0].1, Do(a, step);
    ConnectionStarts(a, i, e.client, e.clean, e.will);
    ReplacedVacates(a, e.client, i);
    OpenedKnowsNothing(next, i);
  }

  /** In every state, for every connection: the acknowledgements it has been committed to are its CONNACK, a
      PUBREL for each packet id that was saved, and the answers to what it has heard, in that order; the QoS 2
      publishes recorded are those not released; and the packet ids to be completed are those saved or received
      that no PUBCOMP has come for. */
  lemma LifeAccounts(a: State, steps: seq<Step>, st: State, i: ConnectionId)
    requires Since(a, steps, st, i) && !st.panicked
    ensures Accounts(a, steps, st, i)
  {
    hide Reachable, Run, Lives, Heard, Do, Enabled, StepInScope, Good, Replaced, Answers, Unreleased, KnownAll, SubsAll,
         LetsIn;
    var next := Do(a, steps[0]);
    OpenedStands(a, steps[0], i);
    assert Good(next) by { OpenedIsGood(a, steps, st, i); }
    LifeGoes(next, steps[1..], st, i);
    var e, s := a.inbox[0].1, next.sess[i];
    assert Acks([]) == [] && AllAcks(s) == s.committed;
  }

  lemma OpenedIsGood(a: State, steps: seq<Step>, st: State, i: ConnectionId)
    requires Since(a, steps, st, i) && !st.panicked
    ensures Good(Do(a, steps[0]))
  {
    hide Reachable, Lives, Do, Enabled, StepInScope, Good, Opens;
    ReachableIsGood(a);
    RunStep(a, steps, st);
  }

  // ---------------------------------------------------------------- every connection has a life

  ghost predicate Began(st: State, i: ConnectionId) {
    exists a, steps :: Since(a, steps, st, i)
  }

  lemma {:induction false} LivesOn(st: State, steps: seq<Step>, last: State, step: Step, i: ConnectionId)
    requires Run(st, steps, last) && Lives(st, steps, i)
    requires Enabled(last, step) && !Opens(last, step, i) && i in Do(last, step).sess
    ensures Lives(st, steps + [step], i)
    decreases |steps|
  {
    hide Enabled, Do, StepInScope, Opens;
    if steps == [] {
      assert ([] + [step])[1..] == [] && steps + [step] == [step];
      assert Lives(Do(st, step), [], i);
    } else {
      LivesOn(Do(st, steps[0]), steps[1..], last, step, i);
      assert (steps + [step])[1..] == steps[1..] + [step];
    }
  }

  lemma SinceOn(a: State, steps: seq<Step>, st: State, step: Step, i: ConnectionId)
    requires Since(a, steps, st, i) && Enabled(st, step) && StepInScope(step) && !Opens(st, step, i)
    requires i in Do(st, step).sess
    ensures Since(a, steps + [step], Do(st, step), i)
  {
    hide Reachable, Enabled, Do, StepInScope, Opens, Run, Lives;
    RunOn(Do(a, steps[0]), steps[1..], st, step);
    LivesOn(Do(a, steps[0]), steps[1..], st, step, i);
    assert (steps + [step])[1..] == steps[1..] + [step];
  }

  lemma StepBegan(st: State, step: Step, i: ConnectionId)
    requires Reachable(st) && Enabled(st, step) && StepInScope(step) && !Do(st, step).panicked && i in Do(st, step).sess
    requires i in st.sess ==> Began(st, i)
    ensures Began(Do(st, step), i)
  {
    hide Reachable, Enabled, Do, StepInScope, Opens, Good, Goes, StaysInOrder, HeardIn, Since;
    if Opens(st, step, i) {
      SinceNow(st, step, i);
    } else {
      ReachableIsGood(st);
      GoodClients(st);
      StepGoes(st, step, i);
      var a, steps :| Since(a, steps, st, i);
      SinceOn(a, steps, st, step, i);
    }
  }

  lemma SinceNow(st: State, step: Step, i: ConnectionId)
    requires Reachable(st) && Enabled(st, step) && StepInScope(step) && Opens(st, step, i) && i in Do(st, step).sess
    ensures Since(st, [step], Do(st, step), i)
  {
    hide Reachable, Enabled, Do, StepInScope, Opens;
    var steps := [step];
    assert steps[1..] == [];
  }

  lemma {:induction false} RunBegan(st: State, steps: seq<Step>, last: State)
    requires Reachable(st) && Run(st, steps, last) && !last.panicked
    requires forall i :: i in st.sess ==> Began(st, i)
    ensures forall i :: i in last.sess ==> Began(last, i)
    decreases |steps|
  {
    hide Reached, Enabled, Do, StepInScope, Good, Began;
    if steps != [] {
      ReachableIsGood(st);
      RunStep(st, steps, last);
      ReachedOn(st, steps[0]);
      forall i | i in Do(st, steps[0]).sess ensures Began(Do(st, steps[0]), i) {
        StepBegan(st, steps[0], i);
      }
      RunBegan(Do(st, steps[0]), steps[1..], last);
    }
  }

  /** Every connection of every state has begun with its client being let in. */
  lemma EveryConnectionBegan(st: State, i: ConnectionId)
    requires Reachable(st) && i in st.sess
    ensures Began(st, i)
  {
    hide Run, Began, Good, Initial;
    var size: nat, count: nat, cfg: Config, steps: seq<Step> :| ReachedBy(size, count, cfg, steps, st);
    var start := Initial(size, count, cfg);
    StartReachable(size, count, cfg);
    RunBegan(start, steps, st);
  }

  lemma StartReachable(size: nat, count: nat, cfg: Config)
    requires size >= 1024 && count >= 1 && cfg.maxOutgoing >= 1
    ensures Reachable(Initial(size, count, cfg))
    ensures Initial(size, count, cfg).sess == map[] && Initial(size, count, cfg).grave == map[]
  {
    assert ReachedBy(size, count, cfg, [], Initial(size, count, cfg));
  }

  // ---------------------------------------------------------------- saved releases

  /** The packet ids to be completed of a connection that a step drops. */
  function ReleasesAfter(st: State, step: Step, id: ConnectionId): seq<PacketId>
    requires id in st.sess
  {
    if step.Handle? && st.inbox != [] && st.inbox[0].0 == id && st.inbox[0].1.DeviceData? then
      AfterAll(DeskOf(st, id), st.inbox[0].1.packets).releases
    else st.sess[id].out.unackedPubrels
  }

  /** The step drops the lasting connection of the client, and saves what it is still to complete. */
  ghost predicate SavesAs(st: State, step: Step, id: ConnectionId, client: Text, v: Saved) {
    && id in st.sess && st.sess[id].client == client && !st.sess[id].clean
    && v.unackedPubrels == ReleasesAfter(st, step, id)
  }

  ghost predicate SavedIn(st: State, step: Step, client: Text, v: Saved) {
    exists id :: SavesAs(st, step, id, client, v)
  }

  lemma ReplacedSaves(st: State, step: Step, client: Text, c: Text)
    requires ClientsOk(st.sess, st.byClient) && c in Replaced(st, client).grave
    requires step.Handle? && st.inbox != [] && st.inbox[0].1.Connect?
    ensures var v := Replaced(st, client).grave[c]; (c in st.grave && st.grave[c] == v) || SavedIn(st, step, c, v)
  {
    hide InRange, OthersKnown, MapOk, Replaced, DeskOf;
    ReplacedDrops(st, client);
    if client in st.byClient && c == client {
      assert SavesAs(st, step, st.byClient[client], c, Replaced(st, client).grave[c]);
    }
  }

  lemma ConnectSaves(st: State, step: Step, c: Text)
    requires ClientsOk(st.sess, st.byClient) && Enabled(st, step) && step.Handle? && st.inbox[0].1.Connect?
    requires c in Do(st, step).grave
    ensures var v := Do(st, step).grave[c]; (c in st.grave && st.grave[c] == v) || SavedIn(st, step, c, v)
  {
    hide InRange, HandleNewConnection, LetsIn, Replaced, Started, Dropped, SavedIn;
    var e := st.inbox[0].1;
    ConnectionStarts(st, step.vacant, e.client, e.clean, e.will);
    if c in Replaced(st, e.client).grave {
      ReplacedSaves(st, step, e.client, c);
    }
  }

  lemma DataSaves(st: State, step: Step, c: Text)
    requires Enabled(st, step) && step.Handle? && st.inbox[0].1.DeviceData? && !Do(st, step).panicked
    requires c in Do(st, step).grave
    ensures var v := Do(st, step).grave[c]; (c in st.grave && st.grave[c] == v) || SavedIn(st, step, c, v)
  {
    hide InRange, HandleDevicePayload, AcceptsAll, SaysAll, AfterAll, Taken, DeskOf, DisconnectsAny, Undisturbed,
         OthersKnown, MapOk;
    var (id, e) := st.inbox[0];
    if id in st.sess {
      PayloadIsServed(st, id, e.packets);
      var next := HandleDevicePayload(st, id, e.packets);
      if DisconnectsAny(DeskOf(st, id), e.packets) && c == st.sess[id].client {
        assert SavesAs(st, step, id, c, next.grave[c]);
      }
    } else {
      NobodyThere(st, id, e.packets);
    }
  }

  lemma DropSaves(st: State, step: Step, c: Text)
    requires Enabled(st, step) && step.Handle? && st.inbox[0].1.Disconnected? && c in Do(st, step).grave
    ensures var v := Do(st, step).grave[c]; (c in st.grave && st.grave[c] == v) || SavedIn(st, step, c, v)
  {
    hide InRange, HandleDisconnection, OthersKnown, MapOk, DeskOf;
    var id := st.inbox[0].0;
    if id in st.sess {
      DisconnectionDrops(st, id);
      if c == st.sess[id].client {
        assert SavesAs(st, step, id, c, HandleDisconnection(st, id).grave[c]);
      }
    } else {
      GoneAlready(st, id);
    }
  }

  /** A saved session is the one that was saved, or is saved by this step. */
  lemma StepSaves(st: State, step: Step, c: Text)
    requires ClientsOk(st.sess, st.byClient) && Enabled(st, step) && !Do(st, step).panicked && c in Do(st, step).grave
    ensures var v := Do(st, step).grave[c]; (c in st.grave && st.grave[c] == v) || SavedIn(st, step, c, v)
  {
    hide InRange, HandleNewConnection, HandleDevicePayload, HandleDisconnection, HandleLastWill, Reschedule, Consume,
         Replaced, SavedIn, SameToDevice, Undisturbed, BuildLink, TakeWakeUp, ExchangeBuffer, WrittenOut;
    match step
    case Poll => PollIsSame(st);
    case Handle(vacant) =>
      match st.inbox[0].1 {
        case Connect(client, clean, will) => ConnectSaves(st, step, c);
        case DeviceData(packets) => DataSaves(st, step, c);
        case Disconnected => DropSaves(st, step, c);
        case LinkReady => ReadyLeaves(st, st.inbox[0].0);
        case PublishWill(client) => WillOnlySchedules(st, client);
      }
    case _ => LinkStepIsSame(st, step);
  }

  /** The session was saved by a step from a state that can be reached, and has been kept as it was. */
  ghost predicate SavedSince(a: State, step: Step, client: Text, v: Saved) {
    && Reachable(a) && Enabled(a, step) && StepInScope(step) && !Do(a, step).panicked
    && client in Do(a, step).grave && Do(a, step).grave[client] == v && SavedIn(a, step, client, v)
  }

  ghost predicate WasSaved(client: Text, v: Saved) {
    exists a, step :: SavedSince(a, step, client, v)
  }

  lemma {:induction false} RunSaved(st: State, steps: seq<Step>, last: State)
    requires Reachable(st) && Run(st, steps, last) && !last.panicked
    requires forall c :: c in st.grave ==> WasSaved(c, st.grave[c])
    ensures forall c :: c in last.grave ==> WasSaved(c, last.grave[c])
    decreases |steps|
  {
    hide Reached, Enabled, Do, StepInScope, Good, WasSaved, SavedIn;
    if steps != [] {
      var next := Do(st, steps[0]);
      ReachableIsGood(st);
      RunStep(st, steps, last);
      ReachedOn(st, steps[0]);
      forall c | c in next.grave ensures WasSaved(c, next.grave[c]) {
        StepSaves(st, steps[0], c);
        if SavedIn(st, steps[0], c, next.grave[c]) {
          SavedNow(st, steps[0], c);
        }
      }
      RunSaved(next, steps[1..], last);
    }
  }

  lemma SavedNow(st: State, step: Step, c: Text)
    requires Reachable(st) && Enabled(st, step) && StepInScope(step) && !Do(st, step).panicked
    requires c in Do(st, step).grave && SavedIn(st, step, c, Do(st, step).grave[c])
    ensures WasSaved(c, Do(st, step).grave[c])
  {
    hide Reachable, Enabled, Do, StepInScope, SavedIn;
    assert SavedSince(st, step, c, Do(st, step).grave[c]);
  }

  /** Every saved session of every state has what its last connection was still to complete. */
  lemma EverySavedWasSaved(st: State, client: Text)
    requires Reachable(st) && client in st.grave
    ensures WasSaved(client, st.grave[client])
  {
    hide Run, WasSaved, Good, Initial;
    var size: nat, count: nat, cfg: Config, steps: seq<Step> :| ReachedBy(size, count, cfg, steps, st);
    StartReachable(size, count, cfg);
    RunSaved(Initial(size, count, cfg), steps, st);
  }

  // ---------------------------------------------------------------- what the broker accepts

  /** What a step makes the broker accept: what the device whose packets it handles may expect, or the will it
      publishes. */
  function AcceptedIn(st: State, step: Step): seq<Publish> {
    if step.Handle? && st.inbox != [] then
      match st.inbox[0].1
      case DeviceData(packets) =>
        if st.inbox[0].0 in st.sess then AcceptsAll(DeskOf(st, st.inbox[0].0), packets) else []
      case PublishWill(client) => if client in st.wills then [st.wills[client]] else []
      case _ => []
    else []
  }

  /** The wills after a step: a client that is let in with a will leaves it; publishing it takes it out, and so
      does a DISCONNECT. */
  function WillsAfter(st: State, step: Step): map<Text, Publish> {
    if step.Handle? && st.inbox != [] then
      match st.inbox[0].1
      case Connect(client, _, will) =>
        if LetsIn(st, client) && will.Some? then st.wills[client := will.value] else st.wills
      case DeviceData(packets) =>
        var id := st.inbox[0].0;
        if id in st.sess && DisconnectPacket in Taken(DeskOf(st, id), packets) then st.wills - {st.sess[id].client}
        else st.wills
      case PublishWill(client) => st.wills - {client}
      case _ => st.wills
    else st.wills
  }

  lemma ConnectAccepts(st: State, vacant: ConnectionId, client: Text, clean: bool, will: Option<Publish>)
    requires ClientsOk(st.sess, st.byClient) && vacant !in Replaced(st, client).sess
    ensures var next := HandleNewConnection(st, vacant, client, clean, will);
            && next.store.accepted == st.store.accepted
            && next.wills == (if LetsIn(st, client) && will.Some? then st.wills[client := will.value] else st.wills)
  {
    hide InRange, HandleNewConnection, LetsIn, Replaced, Started, OthersKnown, MapOk, IsPlainId;
    ConnectionStarts(st, vacant, client, clean, will);
  }

  lemma DataAccepts(st: State, id: ConnectionId, ps: seq<Packet>)
    requires !st.panicked && !HandleDevicePayload(st, id, ps).panicked
    ensures var next := HandleDevicePayload(st, id, ps);
            if id in st.sess then
              && next.store.accepted == st.store.accepted + AcceptsAll(DeskOf(st, id), ps)
              && next.wills == (if DisconnectPacket in Taken(DeskOf(st, id), ps) then st.wills - {st.sess[id].client}
                                else st.wills)
            else next == st
  {
    hide InRange, HandleDevicePayload, AcceptsAll, SaysAll, AfterAll, Taken, DeskOf, DisconnectsAny, Undisturbed,
         OthersKnown, LeftBehind, Answered;
    if id in st.sess {
      PayloadIsServed(st, id, ps);
    } else {
      NobodyThere(st, id, ps);
    }
  }

  lemma DropAccepts(st: State, id: ConnectionId)
    ensures var next := HandleDisconnection(st, id);
            next.store.accepted == st.store.accepted && next.wills == st.wills
  {
    hide InRange, HandleDisconnection, OthersKnown, MapOk;
    if id in st.sess {
      DisconnectionDrops(st, id);
    } else {
      GoneAlready(st, id);
    }
  }

  lemma EventAccepts(st: State, vacant: ConnectionId)
    requires ClientsOk(st.sess, st.byClient) && Enabled(st, Handle(vacant)) && !Handled(st, vacant).panicked
    ensures Handled(st, vacant).store.accepted == st.store.accepted + AcceptedIn(st, Handle(vacant))
    ensures Handled(st, vacant).wills == WillsAfter(st, Handle(vacant))
  {
    hide InRange, HandleNewConnection, HandleDevicePayload, HandleDisconnection, HandleLastWill, Reschedule, LetsIn,
         Replaced, AcceptsAll, Taken, DeskOf, AllUndisturbed;
    var (id, e) := st.inbox[0];
    assert st.store.accepted + [] == st.store.accepted;
    match e
    case Connect(client, clean, will) => ConnectAccepts(st, vacant, client, clean, will);
    case DeviceData(packets) => DataAccepts(st, id, packets);
    case Disconnected => DropAccepts(st, id);
    case LinkReady => ReadyLeaves(st, id);
    case PublishWill(client) =>
      WillOnlySchedules(st, client);
      assert client !in st.wills ==> st.wills - {client} == st.wills;
  }

  lemma StepAccepts(st: State, step: Step)
    requires ClientsOk(st.sess, st.byClient) && Enabled(st, step) && !Do(st, step).panicked
    ensures Do(st, step).store.accepted == st.store.accepted + AcceptedIn(st, step)
    ensures Do(st, step).wills == WillsAfter(st, step)
  {
    hide InRange, Handled, Consume, BuildLink, TakeWakeUp, ExchangeBuffer, WrittenOut, SameToDevice;
    assert st.store.accepted + [] == st.store.accepted;
    match step
    case Handle(vacant) => EventAccepts(st, vacant);
    case Poll => PollIsSame(st);
    case _ => LinkStepIsSame(st, step);
  }

  /** What a run makes the broker accept. */
  ghost function RunAccepts(st: State, steps: seq<Step>): seq<Publish>
    decreases |steps|
  {
    if steps == [] || !Enabled(st, steps[0]) then []
    else AcceptedIn(st, steps[0]) + RunAccepts(Do(st, steps[0]), steps[1..])
  }

  /** Over every run, the broker accepts exactly what devices sent and were allowed to, as they sent it and in
      the order in which the router came to it, and the wills it published. */
  lemma {:induction false} AcceptsExactly(st: State, steps: seq<Step>, last: State)
    requires Good(st) && Run(st, steps, last) && !last.panicked
    ensures last.store.accepted == st.store.accepted + RunAccepts(st, steps)
    decreases |steps|
  {
    hide Good, Do, Enabled, StepInScope, ClientsOk, AcceptedIn, WillsAfter;
    if steps == [] {
      assert st.store.accepted + [] == st.store.accepted;
    } else {
      var next := Do(st, steps[0]);
      RunStep(st, steps, last);
      StepAccepts(st, steps[0]);
      AcceptsExactly(next, steps[1..], last);
    }
  }

  // ---------------------------------------------------------------- wills

  /** The step lets the client in with a will. */
  predicate LeavesWill(st: State, step: Step, client: Text) {
    && step.Handle? && st.inbox != [] && st.inbox[0].1.Connect?
    && st.inbox[0].1.client == client && st.inbox[0].1.will.Some? && LetsIn(st, client)
  }

  predicate PublishesWill(st: State, step: Step, client: Text) {
    step.Handle? && st.inbox != [] && st.inbox[0].1 == PublishWill(client) && client in st.wills
  }

  /** No step of the run lets the client in with a will. */
  ghost predicate LeavesNoWill(st: State, steps: seq<Step>, client: Text)
    decreases |steps|
  {
    steps != [] && Enabled(st, steps[0]) ==>
      !LeavesWill(st, steps[0], client) && LeavesNoWill(Do(st, steps[0]), steps[1..], client)
  }

  /** How often the will of the client is published. */
  ghost function WillsPublished(st: State, steps: seq<Step>, client: Text): nat
    decreases |steps|
  {
    if steps == [] || !Enabled(st, steps[0]) then 0
    else (if PublishesWill(st, steps[0], client) then 1 else 0) + WillsPublished(Do(st, steps[0]), steps[1..], client)
  }

  lemma WillStays(st: State, step: Step, client: Text)
    requires !LeavesWill(st, step, client)
    ensures client in WillsAfter(st, step) ==> client in st.wills && WillsAfter(st, step)[client] == st.wills[client]
    ensures PublishesWill(st, step, client) ==> client !in WillsAfter(st, step)
  {
    hide LetsIn, DeskOf, Taken;
  }

  /** Until a client is let in with another will, the one it left is published at most once; and never if it has
      been taken out by a DISCONNECT. */
  lemma {:induction false} WillOnce(st: State, steps: seq<Step>, last: State, client: Text)
    requires Good(st) && Run(st, steps, last) && !last.panicked && LeavesNoWill(st, steps, client)
    ensures WillsPublished(st, steps, client) + (if client in last.wills then 1 else 0)
            <= if client in st.wills then 1 else 0
    ensures client in last.wills ==> last.wills[client] == st.wills[client]
    decreases |steps|
  {
    hide Good, Do, Enabled, StepInScope, ClientsOk, AcceptedIn, WillsAfter, LeavesWill;
    if steps != [] {
      RunStep(st, steps, last);
      StepAccepts(st, steps[0]);
      WillStays(st, steps[0], client);
      WillOnce(Do(st, steps[0]), steps[1..], last, client);
    }
  }
}
