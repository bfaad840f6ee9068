/** As long as no slab key is given out again while it is still queued, the ready queue holds every
    ready connection once and no paused one. */
module RouterQueue {
  import opened Basics
  import opened RouterTypes
  import opened StoreSpec
  import opened WindowSpec
  import opened RouterSpec
  import opened RouterInv
  import opened RouterSessions
  import opened RouterForward
  import opened RouterConsume
  import opened RouterOnward
  import opened RouterRun

  ghost predicate Exact(st: State) {
    forall id :: id in st.sess ==> multiset(st.ready)[id] == Turns(st.sess[id].status)
  }

  function Turns(status: Status): nat { if status.Ready? then 1 else 0 }

  /** A new connection is not given a key that is still in the ready queue. */
  ghost predicate FreshKey(st: State, step: Step) {
    step.Handle? && st.inbox != [] && st.inbox[0].1.Connect? ==> step.vacant !in st.ready
  }

  // ---------------------------------------------------------------- polling

  /** Nothing changes in the queue, or the polled connection is paused and leaves its end; links go on with
      what they are doing. */
  ghost predicate PausesAtMost(st: State, st': State, id: ConnectionId) {
    && st'.sess.Keys == st.sess.Keys
    && (forall i :: i in st.sess ==> st'.sess[i].wire.link == st.sess[i].wire.link)
    && (forall i :: i in st.sess && i != id ==> st'.sess[i].status == st.sess[i].status)
    && (|| (st'.ready == st.ready && (id in st.sess ==> st'.sess[id].status == st.sess[id].status))
        || (id in st.sess && st.ready != [] && st.ready[|st.ready| - 1] == id
            && st'.ready == st.ready[..|st.ready| - 1] && st'.sess[id].status.Paused?))
  }

  lemma PausedPauses(st: State, id: ConnectionId, reason: PauseReason)
    requires id in st.sess && st.ready != [] && st.ready[|st.ready| - 1] == id
    ensures PausesAtMost(st, Pause(st, id, reason), id)
  {
  }

  lemma PanicPauses(st: State, id: ConnectionId)
    ensures PausesAtMost(st, Panic(st), id)
  {
  }

  lemma WithPauses(st: State, id: ConnectionId, s: Session)
    requires id in st.sess && s.status == st.sess[id].status && s.wire.link == st.sess[id].wire.link
    ensures PausesAtMost(st, With(st, id, s), id)
  {
  }

  lemma WithThenPauses(st: State, id: ConnectionId, s: Session, st': State)
    requires id in st.sess && s.status == st.sess[id].status && s.wire.link == st.sess[id].wire.link
    requires PausesAtMost(With(st, id, s), st', id)
    ensures PausesAtMost(st, st', id)
  {
    var mid := With(st, id, s);
    forall i | i in st.sess ensures st'.sess[i].wire.link == st.sess[i].wire.link {
      assert mid.sess[i].wire.link == st.sess[i].wire.link;
    }
    forall i | i in st.sess && i != id ensures st'.sess[i].status == st.sess[i].status {
      assert mid.sess[i] == st.sess[i];
    }
  }

  lemma ParkPauses(st: State, id: ConnectionId, s: Session, r: DataRequest)
    requires id in st.sess && s.status == st.sess[id].status && s.wire.link == st.sess[id].wire.link
    requires r.filterIdx < |st.store.logs|
    ensures PausesAtMost(st, Park(With(st, id, s), id, r), id)
  {
  }

  lemma ConsumeOnePauses(st: State, id: ConnectionId)
    requires Polled(st, id)
    ensures var (st', goOn) := ConsumeOne(st, id);
            PausesAtMost(st, st', id) && (goOn ==> st'.ready == st.ready && st'.sess[id].status == st.sess[id].status)
  {
    hide Inv, Primed, ForwardData, ForwardFails, TokenOk, OutOk, WireOk, Pause, OthersUntouched, PausesAtMost, Park;
    var s := st.sess[id];
    if s.reqs == [] {
      PausedPauses(st, id, Caughtup);
    } else if ForwardFails(s, s.reqs[0], st.store) {
      PanicPauses(st, id);
      PolledFirst(st, id);
    } else {
      PolledFirst(st, id);
      var (s', r', status) := ForwardData(s, s.reqs[0], st.store, st.cfg);
      ForwardKeeps(st.store, s, s.reqs[0], st.cfg);
      var b := s'.(reqs := s.reqs[1..] + [r']);
      WithPauses(st, id, b);
      PausedPauses(With(st, id, b), id, Busy);
      PausedPauses(With(st, id, b), id, InflightFull);
      if status.BufferFull? || status.WindowFull? {
        WithThenPauses(st, id, b, ConsumeOne(st, id).0);
      } else if status.FilterCaughtup? {
        ParkPauses(st, id, s'.(reqs := s.reqs[1..]), r');
        ParkedStatus(st, id, s'.(reqs := s.reqs[1..]), r');
      }
    }
  }

  lemma ParkedStatus(st: State, id: ConnectionId, s: Session, r: DataRequest)
    requires r.filterIdx < |st.store.logs|
    ensures var st' := Park(With(st, id, s), id, r); st'.ready == st.ready && st'.sess[id].status == s.status
  {
  }

  lemma StaysThenPauses(a: State, b: State, c: State, id: ConnectionId)
    requires PausesAtMost(a, b, id) && PausesAtMost(b, c, id) && id in a.sess
    requires b.ready == a.ready && b.sess[id].status == a.sess[id].status
    ensures PausesAtMost(a, c, id)
  {
  }

  lemma {:induction false} ConsumeLoopPauses(st: State, id: ConnectionId, n: nat)
    requires Polled(st, id)
    ensures PausesAtMost(st, ConsumeLoop(st, id, n), id)
    decreases n
  {
    hide Inv, Primed, ConsumeOne, PausesAtMost, RequestFails;
    WithPauses(st, id, st.sess[id]);
    SameState(st, id);
    if n > 0 {
      ConsumeOnePauses(st, id);
      var (next, goOn) := ConsumeOne(st, id);
      if RequestFails(st, id) {
        RequestPanics(st, id);
      } else {
        ConsumeOneKeeps(st, id);
      }
      if goOn {
        ConsumeLoopPauses(next, id, n - 1);
        StaysThenPauses(st, next, ConsumeLoop(next, id, n - 1), id);
      }
    }
  }

  lemma SameState(st: State, id: ConnectionId)
    requires id in st.sess
    ensures With(st, id, st.sess[id]) == st
  {
    assert st.sess[id := st.sess[id]] == st.sess;
  }

  lemma PausesKeepsExact(st: State, st': State, id: ConnectionId)
    requires Exact(st) && PausesAtMost(st, st', id)
    ensures Exact(st')
  {
    if st'.ready != st.ready {
      var n := |st.ready| - 1;
      assert st.ready == st.ready[..n] + [id];
      forall i | i in st'.sess ensures multiset(st'.ready)[i] == Turns(st'.sess[i].status) {
        assert multiset(st.ready)[i] == multiset(st.ready[..n])[i] + (if i == id then 1 else 0);
        assert multiset(st.ready)[i] == Turns(st.sess[i].status);
      }
    }
  }

  lemma TurnedQueue(ready: seq<ConnectionId>, i: ConnectionId)
    requires ready != []
    ensures multiset(ready[1..] + [ready[0]])[i] == multiset(ready)[i]
    ensures i != ready[0] ==> multiset(ready[1..])[i] == multiset(ready)[i]
  {
    assert ready == [ready[0]] + ready[1..];
  }

  lemma PollStartKeepsExact(st: State)
    requires Exact(st) && st.ready != [] && st.ready[0] in st.sess
    ensures Exact(PollStart(st))
  {
    var id := st.ready[0];
    var st' := With(st.(ready := st.ready[1..] + [id]), id, AckDeviceData(st.sess[id]));
    forall i | i in st'.sess ensures multiset(st'.ready)[i] == Turns(st'.sess[i].status) {
      TurnedQueue(st.ready, i);
      assert multiset(st.ready)[i] == Turns(st.sess[i].status);
    }
  }

  lemma StaleKeepsExact(st: State)
    requires Exact(st) && st.ready != [] && st.ready[0] !in st.sess
    ensures Exact(st.(ready := st.ready[1..]))
  {
    forall i | i in st.sess ensures multiset(st.ready[1..])[i] == Turns(st.sess[i].status) {
      TurnedQueue(st.ready, i);
    }
  }

  lemma ConsumeKeepsExact(st: State)
    requires Inv(st) && Exact(st)
    ensures Exact(Consume(st))
  {
    hide Inv, Primed, ConsumeLoop, AckDeviceData, PausesAtMost, Exact;
    if st.ready != [] {
      var id := st.ready[0];
      if id in st.sess {
        PollStarts(st);
        PollStartKeepsExact(st);
        var polled := PollStart(st);
        ConsumeLoopPauses(polled, id, MAX_SCHEDULE_ITERATIONS);
        PausesKeepsExact(polled, ConsumeLoop(polled, id, MAX_SCHEDULE_ITERATIONS), id);
      } else {
        StaleKeepsExact(st);
      }
    }
  }

  // ---------------------------------------------------------------- events

  lemma AddsKeepsExact(st: State, st': State)
    requires Exact(st) && Adds(st, st')
    ensures Exact(st')
  {
    forall id | id in st'.sess ensures multiset(st'.ready)[id] == Turns(st'.sess[id].status) {
      assert Promoted(st.sess[id], multiset(st.ready)[id], st'.sess[id], multiset(st'.ready)[id]);
    }
  }

  lemma AdmittedKeepsExact(st: State, vacant: ConnectionId, s: Session, wills: map<Text, Publish>)
    requires Exact(st) && vacant !in st.ready
    ensures Exact(Admitted(st, vacant, s, wills))
  {
    var st' := Admitted(st, vacant, s, wills);
    forall id | id in st'.sess ensures multiset(st'.ready)[id] == Turns(st'.sess[id].status) {
      assert multiset(st.ready + [vacant])[id] == multiset(st.ready)[id] + (if id == vacant then 1 else 0);
      assert id != vacant ==> multiset(st.ready)[id] == Turns(st.sess[id].status);
    }
  }

  lemma ReplacedKeepsQueue(st: State, client: Text)
    ensures Replaced(st, client).ready == st.ready
  {
    hide CleanLogs, SaveState;
  }

  lemma ConnectKeepsExact(st: State, vacant: ConnectionId, client: Text, clean: bool, will: Option<Publish>)
    requires Exact(st) && vacant !in st.ready && vacant !in Replaced(st, client).sess
    ensures Exact(HandleNewConnection(st, vacant, client, clean, will))
  {
    hide Exact, Adds, Replaced, Admit;
    ReplacedAdds(st, client);
    ReplacedKeepsQueue(st, client);
    var st1 := Replaced(st, client);
    AddsKeepsExact(st, st1);
    AdmittedIs(st1, vacant, Let(st1, client, clean), WillsWith(st1, client, will));
    AdmittedKeepsExact(st1, vacant, Let(st1, client, clean), WillsWith(st1, client, will));
  }

  lemma WithKeepsExact(st: State, id: ConnectionId, s: Session, inbox: seq<(ConnectionId, Event)>)
    requires Exact(st) && id in st.sess && s.status == st.sess[id].status
    ensures Exact(With(st, id, s).(inbox := inbox))
  {
  }

  lemma SameQueueKeepsExact(st: State, st': State)
    requires Exact(st) && st'.sess == st.sess && st'.ready == st.ready
    ensures Exact(st')
  {
  }

  lemma HandleKeepsExact(st: State, vacant: ConnectionId)
    requires Exact(st) && Enabled(st, Handle(vacant)) && FreshKey(st, Handle(vacant))
    ensures Exact(Handled(st, vacant))
  {
    hide Exact, Adds, HandleNewConnection;
    var (id, e) := st.inbox[0];
    if e.Connect? {
      ConnectKeepsExact(st, vacant, e.client, e.clean, e.will);
    } else {
      EventAdds(st, id, vacant, e);
      AddsKeepsExact(st, HandleEvent(st, id, vacant, e));
    }
    SameQueueKeepsExact(HandleEvent(st, id, vacant, e), Handled(st, vacant));
  }

  lemma LinkKeepsExact(st: State, step: Step)
    requires Exact(st) && Enabled(st, step) && !step.Handle? && !step.Poll?
    ensures Exact(Do(st, step))
  {
    hide Exact;
    match step
    case Send(from, e) => SameQueueKeepsExact(st, Do(st, step));
    case Build(id) =>
      SameQueueKeepsExact(st, Panic(st));
      WithKeepsExact(st, id, st.sess[id].(wire := BuildLink(st, id).sess[id].wire), st.inbox);
    case TakeWake(id) => WithKeepsExact(st, id, TakeWakeUp(st, id).sess[id], st.inbox);
    case Exchange(id) => WithKeepsExact(st, id, ExchangeBuffer(st, id).sess[id], st.inbox);
    case Written(id) => WithKeepsExact(st, id, WrittenOut(st, id).sess[id], WrittenOut(st, id).inbox);
  }

  lemma StepKeepsExact(st: State, step: Step)
    requires Good(st) && Exact(st) && Enabled(st, step) && FreshKey(st, step)
    ensures Exact(Do(st, step))
  {
    hide Inv, InboxOk, Exact, Handled, Consume;
    if step.Poll? {
      ConsumeKeepsExact(st);
    } else if step.Handle? {
      HandleKeepsExact(st, step.vacant);
    } else {
      LinkKeepsExact(st, step);
    }
  }

  /** No key is given out again while it is still queued, all along the run. */
  ghost predicate FreshKeys(st: State, steps: seq<Step>)
    decreases |steps|
  {
    steps != [] ==> FreshKey(st, steps[0]) && (Enabled(st, steps[0]) ==> FreshKeys(Do(st, steps[0]), steps[1..]))
  }

  /** In every such run, a connection is in the ready queue once while it is ready, and not at all while
      it is paused. */
  lemma {:induction false} QueueIsExact(st: State, steps: seq<Step>, last: State)
    requires Good(st) && Exact(st) && Run(st, steps, last) && FreshKeys(st, steps) && !last.panicked
    ensures Exact(last)
    decreases |steps|
  {
    hide Good, Do, Exact, FreshKey;
    if steps != [] {
      var next := Do(st, steps[0]);
      PanicIsFinal(next, steps[1..], last);
      PanicsExactly(st, steps[0]);
      StepKeepsGood(st, steps[0]);
      StepKeepsExact(st, steps[0]);
      QueueIsExact(next, steps[1..], last);
    }
  }

  lemma InitialExact(maxSegmentSize: nat, maxSegments: nat, cfg: Config)
    requires maxSegmentSize >= 1024 && maxSegments >= 1
    ensures Exact(Initial(maxSegmentSize, maxSegments, cfg))
  {
  }
}
