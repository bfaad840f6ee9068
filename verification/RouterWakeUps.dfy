/** No wake-up is lost: a connection with something to read is ready, or will be made so. */
module RouterWakeUps {
  import opened Basics
  import opened LogSpec
  import opened RouterTypes
  import opened StoreSpec
  import opened WindowSpec
  import opened RouterSpec
  import opened RouterInv
  import opened RouterPackets
  import opened RouterSessions
  import opened RouterForward
  import opened RouterConsume
  import opened RouterOnward
  import opened RouterRun
  import opened RouterQueue
  import opened RouterOrder

  /** A request to be scheduled is in the inbox, or the link is about to make one, or it has a wake-up
      for the buffer that tells it to. */
  ghost predicate WakeOnItsWay(st: State, id: ConnectionId)
    requires id in st.sess
  {
    var w := st.sess[id].wire;
    || (id, LinkReady) in st.inbox
    || w.link == Writing(true)
    || (Unschedule in w.buffer && (w.link.Woken? || w.wakes >= 1))
  }

  lemma QueuedAt(st: State, id: ConnectionId)
    requires Inv(st) && id in st.sess
    ensures QueuedOk(st.sess[id], id, st.ready, st.inbox) && WireOk(st.sess[id]) && FullOk(st.sess[id])
            && StatusOk(st.sess[id])
  {
    hide OutOk, WireOk, QueuedOk, TokenOf, StoreOk, WaitersOk, CountsOk, GraveOk, FullOk, StatusOk;
    assert SessionOk(st.store.logs, st.sess[id]);
  }

  /** The connection is queued, or waits for an acknowledgement with its window full, or waits for a wake-up
      that is on its way. */
  ghost predicate ServedOrWoken(st: State, id: ConnectionId) {
    id in st.sess &&
    match st.sess[id].status
    case Ready => id in st.ready
    case Paused(InflightFull) => |st.sess[id].out.inflight| == MAX_INFLIGHT
    case Paused(Busy) => WakeOnItsWay(st, id)
    case Paused(Caughtup) => false
  }

  /** Between events, a request with something left to read is in its tracker, not parked, and its
      connection is served or will be woken. */
  lemma NoLostWakeUp(st: State, id: ConnectionId, r: DataRequest)
    requires Good(st) && Has(st, id, r)
    requires r.filterIdx < |st.store.logs| && r.cursor.1 < |st.store.logs[r.filterIdx].hist|
    ensures Tracked(st, id, r) && !IsParked(st, id, r) && st.notes == [] && ServedOrWoken(st, id)
  {
    hide Core, InboxOk, IsParked;
    if IsParked(st, id, r) {
      ParkedIsOk(st, id, r);
    }
    QueuedAt(st, id);
  }

  // ---------------------------------------------------------------- a busy connection comes back

  /** The connection is paused as busy, and its link has not asked for it yet. */
  ghost predicate StillWaits(st: State, id: ConnectionId) {
    id in st.sess && st.sess[id].status == Paused(Busy) && (id, LinkReady) !in st.inbox
  }

  /** What the link of a connection does next of its own. */
  function OwnStep(link: Link, id: ConnectionId): Step {
    match link
    case Building => Build(id)
    case Waiting => TakeWake(id)
    case Woken => Exchange(id)
    case Writing(_) => Written(id)
  }

  /** How many of its own steps the link is away from asking. */
  function Away(link: Link): nat {
    match link
    case Building => 4
    case Waiting => 3
    case Woken => 2
    case Writing(unscheduled) => if unscheduled then 1 else 4
  }

  /** The link of such a connection can always go on. */
  lemma LinkCanGoOn(st: State, id: ConnectionId)
    requires Good(st) && StillWaits(st, id)
    ensures Enabled(st, OwnStep(st.sess[id].wire.link, id))
  {
    hide Core, InboxOk, Forwards;
    QueuedAt(st, id);
    RunningAt(st);
  }

  /** And with each step it comes closer. */
  lemma OwnStepHelps(st: State, id: ConnectionId)
    requires Good(st) && StillWaits(st, id) && Enabled(st, OwnStep(st.sess[id].wire.link, id))
    ensures var next := Do(st, OwnStep(st.sess[id].wire.link, id));
            StillWaits(next, id) ==> Away(next.sess[id].wire.link) < Away(st.sess[id].wire.link)
  {
    hide Core, AllFull, ClientsOk, InboxOk, Forwards, FullOk, InRange;
    QueuedAt(st, id);
    var w := st.sess[id].wire;
    if w.link == Writing(true) {
      assert WrittenOut(st, id).inbox[|st.inbox|] == (id, LinkReady);
    }
  }

  lemma OnlyOwnStep(st: State, step: Step, id: ConnectionId)
    requires Enabled(st, step) && step in {Build(id), TakeWake(id), Exchange(id), Written(id)}
    ensures id in st.sess && step == OwnStep(st.sess[id].wire.link, id)
  {
  }

  lemma ConnectKeepsLinks(st: State, vacant: ConnectionId, client: Text, clean: bool, will: Option<Publish>,
                          id: ConnectionId)
    requires vacant !in Replaced(st, client).sess
    requires var sess := HandleNewConnection(st, vacant, client, clean, will).sess;
             id in sess && sess[id].status.Paused?
    ensures id in st.sess
    ensures HandleNewConnection(st, vacant, client, clean, will).sess[id].wire.link == st.sess[id].wire.link
  {
    hide Replaced, Leaves, Let, WillsWith;
    ReplacedAdds(st, client);
    var st1 := Replaced(st, client);
    LetPaused(st1, client, clean);
    AdmittedIs(st1, vacant, Let(st1, client, clean), WillsWith(st1, client, will));
  }

  lemma PollKeepsLinks(st: State, id: ConnectionId)
    requires Inv(st) && id in Consume(st).sess
    ensures id in st.sess && Consume(st).sess[id].wire.link == st.sess[id].wire.link
  {
    hide Inv, Polled, ConsumeLoop, PollStart, PausesAtMost;
    if st.ready != [] && st.ready[0] in st.sess {
      var first := st.ready[0];
      PollStarts(st);
      ConsumeLoopPauses(PollStart(st), first, MAX_SCHEDULE_ITERATIONS);
      ConsumeIs(st);
      LoopKeepsLinks(PollStart(st), Consume(st), first, id);
      PollStartKeepsLinks(st, id);
    }
  }

  lemma ConsumeIs(st: State)
    requires st.ready != [] && st.ready[0] in st.sess
    ensures Consume(st) == ConsumeLoop(PollStart(st), st.ready[0], MAX_SCHEDULE_ITERATIONS)
  {
    hide ConsumeLoop, AckDeviceData;
  }

  lemma LoopKeepsLinks(st: State, st': State, polled: ConnectionId, id: ConnectionId)
    requires PausesAtMost(st, st', polled) && id in st'.sess
    ensures id in st.sess && st'.sess[id].wire.link == st.sess[id].wire.link
  {
  }

  lemma PollStartKeepsLinks(st: State, id: ConnectionId)
    requires st.ready != [] && st.ready[0] in st.sess && id in PollStart(st).sess
    ensures id in st.sess && PollStart(st).sess[id].wire.link == st.sess[id].wire.link
  {
  }

  /** Whatever else happens, the link goes on with what it is doing. */
  lemma OthersKeepLink(st: State, step: Step, id: ConnectionId)
    requires Good(st) && Enabled(st, step) && step !in {Build(id), TakeWake(id), Exchange(id), Written(id)}
    requires StillWaits(Do(st, step), id)
    ensures id in st.sess && Do(st, step).sess[id].wire.link == st.sess[id].wire.link
  {
    hide Inv, InboxOk, HandleNewConnection, HandleDevicePayload, HandleDisconnection, HandleLastWill, Consume, Leaves,
         Reschedule;
    match step
    case Handle(vacant) =>
      var (from, e) := st.inbox[0];
      if e.Connect? {
        ConnectKeepsLinks(st, vacant, e.client, e.clean, e.will, id);
      } else {
        EventAdds(st, from, vacant, e);
      }
    case Poll => PollKeepsLinks(st, id);
    case _ =>
  }

  ghost function OwnSteps(steps: seq<Step>, id: ConnectionId): nat {
    if steps == [] then 0
    else (if steps[0] in {Build(id), TakeWake(id), Exchange(id), Written(id)} then 1 else 0) + OwnSteps(steps[1..], id)
  }

  /** Somewhere along the run the connection is asked for, or no longer paused as busy, or gone. */
  ghost predicate Released(st: State, steps: seq<Step>, id: ConnectionId)
    decreases |steps|
  {
    || !StillWaits(st, id)
    || (steps != [] && Enabled(st, steps[0]) && Released(Do(st, steps[0]), steps[1..], id))
  }

  lemma NothingAfterPanic(st: State, steps: seq<Step>, last: State)
    requires st.panicked && Run(st, steps, last)
    ensures steps == []
  {
  }

  lemma StepComesCloser(st: State, step: Step, id: ConnectionId)
    requires Good(st) && Enabled(st, step) && StillWaits(st, id) && StillWaits(Do(st, step), id)
    ensures Away(Do(st, step).sess[id].wire.link) + OwnSteps([step], id) <= Away(st.sess[id].wire.link)
  {
    hide Good, Enabled, Do, StillWaits;
    assert [step][1..] == [];
    assert id in st.sess && id in Do(st, step).sess by { WaitsIsThere(st, id); WaitsIsThere(Do(st, step), id); }
    if step in {Build(id), TakeWake(id), Exchange(id), Written(id)} {
      OnlyOwnStep(st, step, id);
      OwnStepHelps(st, id);
    } else {
      OthersKeepLink(st, step, id);
    }
  }

  lemma WaitsIsThere(st: State, id: ConnectionId)
    requires StillWaits(st, id)
    ensures id in st.sess
  {
  }

  lemma {:induction false} ReleasedInTime(st: State, steps: seq<Step>, last: State, id: ConnectionId)
    requires Good(st) && Run(st, steps, last)
    requires StillWaits(st, id) ==> OwnSteps(steps, id) >= Away(st.sess[id].wire.link)
    ensures Released(st, steps, id)
    decreases |steps|
  {
    hide Good, Enabled, Do, StillWaits, StepFails;
    if StillWaits(st, id) {
      var step, next := steps[0], Do(st, steps[0]);
      if StepFails(st, step) {
        StepPanics(st, step);
        NothingAfterPanic(next, steps[1..], last);
        assert step.Handle? || step.Poll? by { OnlyRouterPanics(st, step); }
      } else {
        StepKeepsGood(st, step);
        if StillWaits(next, id) {
          WaitsIsThere(next, id);
          StepComesCloser(st, step, id);
          assert [step][1..] == [];
        }
        ReleasedInTime(next, steps[1..], last, id);
      }
    }
  }

  lemma OnlyRouterPanics(st: State, step: Step)
    requires StepFails(st, step)
    ensures step.Handle? || step.Poll?
  {
    hide EventFails, PollFails;
  }

  /** A connection paused as busy comes back: in every run in which its link takes four of its own steps,
      whatever it is doing and whatever else happens in between, the link asks for it, unless it is made
      ready or dropped before. */
  lemma BusyComesBack(st: State, steps: seq<Step>, last: State, id: ConnectionId)
    requires Good(st) && Run(st, steps, last) && OwnSteps(steps, id) >= 4
    ensures Released(st, steps, id)
  {
    hide Good, Run, OwnSteps;
    ReleasedInTime(st, steps, last, id);
  }

  lemma RunningAt(st: State)
    requires Inv(st)
    ensures !st.panicked
  {
    hide StoreOk, SessionsOk, WaitersOk, CountsOk, ReadyOk, GraveOk;
  }

  /** Handling that request puts the connection back in the queue. */
  lemma AskingIsAnswered(st: State, id: ConnectionId)
    requires Good(st) && id in st.sess
    ensures var st' := HandleEvent(st, id, 0, LinkReady);
            Inv(st') && id in st'.sess && st'.sess[id].status.Ready? && id in st'.ready
  {
    hide Core, InboxOk;
    LinkReadyKeepsCore(st, id);
    QueuedAt(Reschedule(st, id, ReadyEvent), id);
  }

  /** An acknowledgement in order brings a connection back that waits with its window full. */
  lemma AckBringsBack(b: Batch, id: ConnectionId, rec: bool)
    requires id in b.st.sess && b.st.sess[id].status == Paused(InflightFull) && b.st.sess[id].out.inflight != []
    requires 1 <= b.st.sess[id].out.inflight[0].pkid <= MAX_INFLIGHT
    ensures var st := Acknowledged(b, id, b.st.sess[id].out.inflight[0].pkid, rec).st;
            st.sess[id].status.Ready? && id in st.ready
  {
    var st := Acknowledged(b, id, b.st.sess[id].out.inflight[0].pkid, rec).st;
    assert st.ready[|b.st.ready|] == id;
  }

  // ---------------------------------------------------------------- the queue is served in order

  ghost function Polls(steps: seq<Step>): nat {
    if steps == [] then 0 else (if steps[0].Poll? then 1 else 0) + Polls(steps[1..])
  }

  lemma StepServes(st: State, step: Step, k: nat)
    requires Enabled(st, step) && k < |st.ready| && (step.Poll? ==> k >= 1)
    ensures var k' := if step.Poll? then k - 1 else k;
            k' < |Do(st, step).ready| && Do(st, step).ready[k'] == st.ready[k]
  {
    hide StoreExtends, HandleEvent, Consume;
    match step
    case Handle(vacant) => EventLeaves(st, st.inbox[0].0, vacant, st.inbox[0].1);
    case Poll => ConsumeLeaves(st);
    case _ =>
  }

  /** Whatever else happens, the connection at place `k` of the ready queue is the first in the queue
      after `k` polls, so that the next poll takes it. */
  lemma {:induction false} ServedInTurn(st: State, steps: seq<Step>, last: State, k: nat)
    requires Run(st, steps, last) && Polls(steps) <= k < |st.ready|
    ensures k - Polls(steps) < |last.ready| && last.ready[k - Polls(steps)] == st.ready[k]
    decreases |steps|
  {
    hide Do, Enabled;
    if steps != [] {
      StepServes(st, steps[0], k);
      ServedInTurn(Do(st, steps[0]), steps[1..], last, if steps[0].Poll? then k - 1 else k);
    }
  }

  // ---------------------------------------------------------------- and so are requests

  /** The state after `n` reads of a poll. */
  function AfterReads(st: State, id: ConnectionId, n: nat): State
    decreases n
  {
    if n == 0 then st else AfterReads(ConsumeOne(st, id).0, id, n - 1)
  }

  /** The poll goes on for so many reads. */
  predicate ReadsOn(st: State, id: ConnectionId, n: nat)
    decreases n
  {
    n > 0 ==> ConsumeOne(st, id).1 && ReadsOn(ConsumeOne(st, id).0, id, n - 1)
  }

  lemma OneTurn(st: State, id: ConnectionId)
    requires id in st.sess && ConsumeOne(st, id).1
    ensures var reqs, next := st.sess[id].reqs, ConsumeOne(st, id).0;
            && reqs != [] && id in next.sess && reqs[1..] <= next.sess[id].reqs
  {
    hide InRange, ForwardData, ForwardFails, Pause;
    PauseEnds(st, id);
  }

  lemma PauseEnds(st: State, id: ConnectionId)
    requires id in st.sess
    ensures st.sess[id].reqs == [] ==> !ConsumeOne(st, id).1
  {
    hide InRange, ForwardData, ForwardFails, Pause, Park, With;
  }

  /** A request that is tracked when its connection is polled is read after those before it, each once, as far
      as the poll gets. */
  lemma {:induction false} RequestsInTurn(st: State, id: ConnectionId, k: nat)
    requires id in st.sess && k < |st.sess[id].reqs| && ReadsOn(st, id, k)
    ensures id in AfterReads(st, id, k).sess
    ensures AfterReads(st, id, k).sess[id].reqs != []
    ensures AfterReads(st, id, k).sess[id].reqs[0] == st.sess[id].reqs[k]
    decreases k
  {
    hide ConsumeOne;
    if k > 0 {
      OneTurn(st, id);
      var next := ConsumeOne(st, id).0;
      assert next.sess[id].reqs[k - 1] == st.sess[id].reqs[1..][k - 1];
      RequestsInTurn(next, id, k - 1);
    }
  }

  /** A read ends the poll exactly if it pauses the connection, or makes the router panic. */
  lemma EndsByPausing(st: State, id: ConnectionId)
    requires id in st.sess && st.sess[id].status.Ready? && !ConsumeOne(st, id).0.panicked
    ensures var (next, goOn) := ConsumeOne(st, id);
            id in next.sess && (goOn <==> next.sess[id].status.Ready?)
  {
    hide InRange, ForwardData, ForwardFails, Pause, Park;
    var s := st.sess[id];
    if s.reqs == [] {
      PausePauses(st, id, Caughtup);
    } else {
      StatusKept(st, id);
      var r := s.reqs[0];
      if r.filterIdx < |st.store.logs| && |s.out.inflight| <= MAX_INFLIGHT && !ForwardFails(s, r, st.store) {
        var (s', r', status) := ForwardData(s, r, st.store, st.cfg);
        var back := With(st, id, s'.(reqs := s.reqs[1..] + [r']));
        ForwardKeepsIdx(s, r, st.store, st.cfg);
        match status
        case BufferFull => PausePauses(back, id, Busy);
        case WindowFull => PausePauses(back, id, InflightFull);
        case FilterCaughtup => ParkKeepsSessions(With(st, id, s'.(reqs := s.reqs[1..])), id, r');
        case PartialRead =>
      }
    }
  }

  lemma PausePauses(st: State, id: ConnectionId, reason: PauseReason)
    requires id in st.sess && !Pause(st, id, reason).panicked
    ensures id in Pause(st, id, reason).sess && Pause(st, id, reason).sess[id].status.Paused?
  {
    hide InRange;
  }

  lemma ParkKeepsSessions(st: State, id: ConnectionId, r: DataRequest)
    requires r.filterIdx < |st.store.logs|
    ensures Park(st, id, r).sess == st.sess
  {
    hide InRange;
  }

  lemma StatusKept(st: State, id: ConnectionId)
    requires id in st.sess && st.sess[id].reqs != []
    ensures var s, r := st.sess[id], st.sess[id].reqs[0];
            r.filterIdx < |st.store.logs| && |s.out.inflight| <= MAX_INFLIGHT ==>
              ForwardData(s, r, st.store, st.cfg).0.status == s.status
  {
    hide InRange, ReadRequest, PushForwards;
  }

  /** So as long as the connection stays ready, the poll has gone on. */
  lemma {:induction false} PollsToTheEnd(st: State, id: ConnectionId, n: nat)
    requires id in st.sess && st.sess[id].status.Ready? && !ConsumeLoop(st, id, n).panicked
    requires id in ConsumeLoop(st, id, n).sess && ConsumeLoop(st, id, n).sess[id].status.Ready?
    ensures ReadsOn(st, id, n) && AfterReads(st, id, n) == ConsumeLoop(st, id, n)
    decreases n
  {
    hide ConsumeOne;
    if n > 0 {
      var (next, goOn) := ConsumeOne(st, id);
      if next.panicked {
        PanicStays(next, id, n - 1);
      }
      EndsByPausing(st, id);
      if goOn {
        PollsToTheEnd(next, id, n - 1);
      }
    }
  }

  /** A poll that leaves its connection ready has read 100 times. */
  lemma PollReadsOn(st: State)
    requires st.ready != [] && st.ready[0] in st.sess && st.sess[st.ready[0]].status.Ready? && !Consume(st).panicked
    requires st.ready[0] in Consume(st).sess && Consume(st).sess[st.ready[0]].status.Ready?
    ensures ReadsOn(PollStart(st), st.ready[0], 100)
  {
    hide InRange, ConsumeLoop, ReadsOn;
    AckedStatus(st.sess[st.ready[0]]);
    PollsToTheEnd(PollStart(st), st.ready[0], 100);
  }

  lemma AckedStatus(s: Session)
    ensures AckDeviceData(s).status == s.status
  {
  }

  lemma {:induction false} PanicStays(st: State, id: ConnectionId, n: nat)
    requires st.panicked
    ensures ConsumeLoop(st, id, n).panicked
    decreases n
  {
    hide ConsumeOne;
    if n > 0 {
      OnePanicStays(st, id);
      PanicStays(ConsumeOne(st, id).0, id, n - 1);
    }
  }

  lemma OnePanicStays(st: State, id: ConnectionId)
    requires st.panicked
    ensures ConsumeOne(st, id).0.panicked
  {
    hide InRange, ForwardData, ForwardFails;
  }
}
