/** What the router guarantees in every state it can reach. */
module Guarantees {
  import opened Basics
  import opened LogSpec
  import opened LogReader
  import opened RouterTypes
  import opened StoreSpec
  import opened WindowSpec
  import opened RouterSpec
  import opened RouterInv
  import opened RouterRun
  import opened RouterOrder
  import opened RouterWakeUps
  import opened RouterConservation
  import opened RouterQueue
  import opened RouterPanics
  import opened RouterGiven
  import opened DeviceSpec
  import opened RouterDevice
  import opened RouterLife
  import opened RouterReplies

  // ---------------------------------------------------------------- order

  /** End-to-end order.  Whatever the log has dropped since: as long as no read of a connection has found
      its cursor behind the head, it has been sent from the log exactly the publishes accepted since it
      subscribed that match its filter, in the order they were accepted, up to the cursor of its request:
      no gap, no repeat, nothing else. */
  lemma EndToEnd(st: State, id: ConnectionId, r: DataRequest)
    requires Reachable(st) && Has(st, id, r) && id in st.sess && r.filter in st.sess[id].origin
    requires NeverBehind(st.sess[id], r)
    ensures st.sess[id].origin[r.filter].mark <= |st.sess[id].out.sent|
    ensures st.sess[id].origin[r.filter].since <= |st.store.accepted|
    ensures SentExactly(st, st.sess[id], r)
  {
    hide Reachable, Has, NeverBehind, SentExactly, Inv, InboxOk;
    ReachableIsGood(st);
    EndToEndOrder(st, id, r);
  }

  /** And in any case, what it is sent for a subscription comes from the log in order, without a repeat, each
      publish as it was appended, and what it misses had been dropped before it came to read it. */
  lemma SentInOrder(st: State, id: ConnectionId, r: DataRequest)
    requires Reachable(st) && Has(st, id, r)
    ensures id in st.sess && r.filterIdx < |st.store.logs| && r.filter in st.sess[id].origin
    ensures st.sess[id].origin[r.filter].mark <= |st.sess[id].out.sent|
    ensures var s := st.sess[id];
            var missed := MissedOf(s.out.ledger.missed, r.filterIdx);
            && FollowsLog(st.store.logs[r.filterIdx], s.origin[r.filter].start, r.cursor.1, missed, Got(s, r), r.qos)
            && Gone(st.store.logs[r.filterIdx].log, missed)
  {
    hide Reachable, Has, FollowsLog, Gone, MissedOf, Inv, InboxOk;
    ReachableIsGood(st);
    InOrder(st, id, r);
  }

  /** One read of a request gives it the retained messages its filter selects, if they are still owed, and then
      the log from its cursor or the head on, as far as the limit goes, each with the QoS of the request; those
      of a QoS above 0 enter the window; and the answer says whether the buffer is full or the log read. */
  lemma ReadsAreExact(st: State, id: ConnectionId, r: DataRequest)
    requires Reachable(st) && Has(st, id, r)
    ensures id in st.sess && r.filterIdx < |st.store.logs| && |st.sess[id].out.inflight| <= MAX_INFLIGHT
    ensures exists kept, news :: Gives(st.store, st.sess[id], r, st.cfg, kept, news)
  {
    hide Reachable, Has, Gives, Inv, InboxOk;
    ReachableIsGood(st);
    EveryReadGives(st, id, r);
  }

  /** Whatever a connection has been sent comes from the log of a filter, as it was appended there, or is a
      retained message that matches the filter.  What had a QoS above 0 has entered the window with its packet
      id, its filter and its position, in the order in which it was sent, and nothing else has; an entry is
      there still or has been taken out by an acknowledgement. */
  lemma WindowsHoldWhatWasSent(st: State, id: ConnectionId)
    requires Reachable(st) && id in st.sess
    ensures EnteredOk(st.sess[id].out)
    ensures forall k :: 0 <= k < |st.sess[id].out.sent| ==> SentOk(st.store.logs, st.sess[id].out.sent[k])
    ensures var w := st.sess[id].wire;
            w.taken <= |w.all| && Forwards(w.all[..w.taken]) + Forwards(w.buffer) == st.sess[id].out.sent
  {
    hide Reachable, EnteredOk, SentOk, Forwards, Inv, InboxOk;
    ReachableIsGood(st);
    SentInEveryState(st, id);
    LinkGetsAll(st, id);
  }

  /** What a subscription has been given has the QoS of its request.  The retained messages it has been given
      once, no topic twice, if they were owed when its connection started, and none if they were not or are
      still. */
  lemma GivenOnceWithItsQos(st: State, id: ConnectionId, r: DataRequest)
    requires Reachable(st) && Has(st, id, r)
    ensures id in st.sess && r.filter in st.sess[id].origin
    ensures st.sess[id].origin[r.filter].mark <= |st.sess[id].out.sent|
    ensures var o := st.sess[id].origin[r.filter]; GivenOk(o.owed, st.sess[id].out.sent[o.mark..], r)
  {
    hide Reachable, Has, GivenOk, Inv, InboxOk;
    ReachableIsGood(st);
    GivenInEveryState(st, id, r);
  }

  /** And the next connection of a saved session is owed them exactly if they have not been given yet. */
  lemma SavedIsOwedStill(st: State, client: Text, k: nat)
    requires Reachable(st) && client in st.grave && k < |st.grave[client].reqs|
    ensures var v := st.grave[client];
            v.reqs[k].filter in v.origin && v.origin[v.reqs[k].filter].owed == v.reqs[k].forwardRetained
  {
    hide Reachable, Inv, InboxOk;
    ReachableIsGood(st);
    SavedOwesInEveryState(st, client, k);
  }

  /** There is at most one retained message for a topic: the last publish of it that was accepted with retain set
      and a payload, unless one with an empty payload has been accepted since. */
  lemma RetainedIsLast(st: State)
    requires Reachable(st)
    ensures RetainedOk(st.store.retained, st.store.accepted)
  {
    hide Reachable, RetainedOk, Inv, InboxOk;
    ReachableIsGood(st);
    RetainedInEveryState(st);
  }

  // ---------------------------------------------------------------- devices

  /** The broker has accepted exactly what devices sent and were allowed to, a QoS 0 or QoS 1 publish when it came,
      a QoS 2 publish when it was released, each as it was sent, and the wills it published; in the order in
      which the router handled them. */
  lemma AcceptedIsWhatWasSent(size: nat, count: nat, cfg: Config, steps: seq<Step>, st: State)
    requires ReachedBy(size, count, cfg, steps, st) && !st.panicked
    ensures st.store.accepted == RunAccepts(Initial(size, count, cfg), steps)
  {
    hide Run, Good, RunAccepts;
    InitialGood(size, count, cfg);
    AcceptsExactly(Initial(size, count, cfg), steps, st);
    assert [] + RunAccepts(Initial(size, count, cfg), steps) == RunAccepts(Initial(size, count, cfg), steps);
  }

  /** Every connection was let in once and has been served since as its device may expect: it has been committed
      to its CONNACK, a PUBREL for each packet id of its saved session, and the answers to all the packets it has
      sent, in that order, and to no other acknowledgement; and of the packet ids saved and those a PUBREC has
      come for, exactly those are still to be completed that no PUBCOMP has come for. */
  lemma AnswersAreExact(st: State, id: ConnectionId)
    requires Reachable(st) && id in st.sess
    ensures exists a, steps :: Since(a, steps, st, id) && Accounts(a, steps, st, id)
  {
    hide Reached, Since, Accounts;
    EveryConnectionBegan(st, id);
    var a, steps :| Since(a, steps, st, id);
    LifeAccounts(a, steps, st, id);
  }

  /** A saved session has what its last connection was still to complete. */
  lemma SavedReleasesAreExact(st: State, client: Text)
    requires Reachable(st) && client in st.grave
    ensures WasSaved(client, st.grave[client])
  {
    hide Reachable, WasSaved;
    EverySavedWasSaved(st, client);
  }

  /** A connection that rests has no acknowledgement to make. */
  lemma NoAckIsLeft(st: State, id: ConnectionId)
    requires Reachable(st) && id in st.sess && st.sess[id].status == Paused(Caughtup)
    ensures st.sess[id].committed == []
  {
    hide Reachable, MapsOk;
    ReachableIsDesked(st);
  }

  /** A will is published at most once, as it was given; and never after a DISCONNECT has taken it out. */
  lemma WillsArePublishedOnce(st: State, steps: seq<Step>, last: State, client: Text)
    requires Reachable(st) && Run(st, steps, last) && !last.panicked && LeavesNoWill(st, steps, client)
    ensures WillsPublished(st, steps, client) <= if client in st.wills then 1 else 0
    ensures client in last.wills ==> client in st.wills && last.wills[client] == st.wills[client]
  {
    hide Reachable, Run, LeavesNoWill, WillsPublished, Good;
    ReachableIsGood(st);
    WillOnce(st, steps, last, client);
  }

  // ---------------------------------------------------------------- wake-ups

  /** No lost wake-up.  A request with something left to read is in its tracker, and its connection is
      queued, or waits for an acknowledgement with 100 publishes unacknowledged, or waits for a wake-up
      that is on its way: asked for, about to be asked for by the link, or announced to it. */
  lemma NobodySleepsOnUnread(st: State, id: ConnectionId, r: DataRequest)
    requires Reachable(st) && Has(st, id, r)
    requires r.filterIdx < |st.store.logs| && r.cursor.1 < |st.store.logs[r.filterIdx].hist|
    ensures Tracked(st, id, r) && !IsParked(st, id, r) && ServedOrWoken(st, id)
  {
    hide Reachable, Has, ServedOrWoken, Inv, InboxOk;
    ReachableIsGood(st);
    NoLostWakeUp(st, id, r);
  }

  /** And that wake-up comes: the link of a connection paused as busy can always take its next step, and in
      every run in which it takes four, it has asked for the connection, unless that was made ready or
      dropped before. */
  lemma BusyIsAskedFor(st: State, steps: seq<Step>, last: State, id: ConnectionId)
    requires Reachable(st) && Run(st, steps, last)
    ensures StillWaits(st, id) ==> Enabled(st, OwnStep(st.sess[id].wire.link, id))
    ensures OwnSteps(steps, id) >= 4 ==> Released(st, steps, id)
  {
    hide Reachable, Run, Released, OwnSteps, StillWaits, Enabled, Inv, InboxOk;
    ReachableIsGood(st);
    if StillWaits(st, id) {
      LinkCanGoOn(st, id);
    }
    if OwnSteps(steps, id) >= 4 {
      BusyComesBack(st, steps, last, id);
    }
  }

  /** A link that waits without a wake-up has seen all that was put in its buffer, and has taken it, but for what
      its builder left. */
  lemma LinksAreToldOfAll(st: State, id: ConnectionId)
    requires Reachable(st) && id in st.sess
    ensures WaitsInTheKnow(st.sess[id].wire)
  {
    hide Reachable, WaitsInTheKnow, Inv, InboxOk;
    ReachableIsGood(st);
    NothingWaitsUnannounced(st, id);
  }

  /** A connection paused as busy is made ready by nothing but a Ready event of its link; one paused for its
      full window by that or by its own packets, if one of them may make room. */
  lemma PausedUntilAsked(st: State, step: Step, id: ConnectionId)
    requires Reachable(st) && Enabled(st, step) && !Do(st, step).panicked && !Opens(st, step, id)
    requires id in st.sess && id in Do(st, step).sess && st.sess[id].status.Paused?
             && Do(st, step).sess[id].status.Ready?
    ensures st.sess[id].status.reason.Busy? ==> AskedIn(st, step, id)
    ensures st.sess[id].status.reason.InflightFull? ==>
              AskedIn(st, step, id) ||
              exists k :: 0 <= k < |HeardIn(st, step, id)| && Acknowledges(HeardIn(st, step, id)[k])
  {
    hide Reachable, Enabled, Do, Opens, AskedIn, HeardIn, Goes, Good;
    ReachableIsGood(st);
    GoodClients(st);
    StepGoes(st, step, id);
  }

  // ---------------------------------------------------------------- conservation

  lemma OneRequestPerSubscription(st: State, id: ConnectionId, f: Text)
    requires Reachable(st) && id in st.sess && f in st.sess[id].subs
    ensures OneRequest(st, id, f)
  {
    hide Reachable, OneRequest, Inv, InboxOk;
    ReachableIsGood(st);
    OneRequestEach(st, id, f);
  }

  lemma RequestsBelong(st: State, id: ConnectionId, r: DataRequest)
    requires Reachable(st) && Has(st, id, r)
    ensures Belongs(st, id, r)
  {
    hide Reachable, Has, Belongs, Inv, InboxOk;
    ReachableIsGood(st);
    NoStrayRequest(st, id, r);
  }

  /** A session that is not clean outlives its connection: each of its requests is saved at its point of
      restart, and resuming there skips, of what is in memory and unacknowledged, exactly what was lost to
      acknowledgements out of order.  Nothing is lost if and only if there were none. */
  lemma SessionOutlivesConnection(st: State, id: ConnectionId, r: DataRequest)
    requires Reachable(st) && Has(st, id, r) && id in st.sess && !st.sess[id].clean
    ensures SavedAtRestartPoint(HandleDisconnection(st, id).grave, st.sess[id], r)
    ensures !r.qos.AtMostOnce? ==>
              SkipsExactlyLost(st.store.logs, st.sess[id], r, RewindOne(r, st.sess[id].out.inflight).cursor)
    ensures st.sess[id].out.ledger.lost == {} <==> AllInTurn(st.sess[id].out.ledger.taken)
  {
    hide Reachable, Has, SavedAtRestartPoint, SkipsExactlyLost, AllInTurn, Inv, InboxOk;
    ReachableIsGood(st);
    RestartKeepsAtLeastOnce(st, id, r);
    LosesNothingIff(st, id);
  }

  lemma SavedSessionsKeep(st: State, client: Text, f: Text)
    requires Reachable(st) && client in st.grave && f in st.grave[client].subs
    ensures SavedInOrder(st.store.logs, st.grave[client], f)
  {
    hide Reachable, SavedInOrder, Inv, InboxOk;
    ReachableIsGood(st);
    SavedKeepOneEach(st, client, f);
  }

  // ---------------------------------------------------------------- window, cache, memory, queue, panics

  lemma WindowsAreInOrder(st: State, id: ConnectionId)
    requires Reachable(st) && id in st.sess
    ensures WindowInOrder(st.sess[id].out.inflight)
  {
    hide Reachable, WindowInOrder, Inv, InboxOk;
    ReachableIsGood(st);
    WindowInEveryState(st, id);
  }

  /** Cached or not, the filters found for a topic are exactly those that match it, once each. */
  lemma LookupsAreExact(st: State, topic: Text)
    requires Reachable(st) && !LookupFails(st.store, topic)
    ensures ExactMatches(st.store.logs, topic, Lookup(st.store, topic).1)
    ensures topic in st.store.cache ==> ExactMatches(st.store.logs, topic, st.store.cache[topic])
  {
    hide Reachable, ExactMatches, Lookup, LookupFails, Inv, InboxOk;
    ReachableIsGood(st);
    LookupInEveryState(st, topic);
  }

  /** What a log keeps in memory is bounded: it has at most the configured number of segments, and none
      holds more than the configured size but for its last item.  It keeps what it can: all segments but the
      last hold the configured size, and something has been dropped only if there are as many as may be. */
  lemma LogsAreBounded(st: State, j: nat, i: nat)
    requires Reachable(st) && j < |st.store.logs| && i < |st.store.logs[j].log.segs|
    ensures var log := st.store.logs[j].log;
            && |log.segs| == log.tail - log.head + 1 <= st.store.maxSegments
            && log.segs[i].totalSize == SumSizes(log.segs[i].data)
            && (log.segs[i].data != [] ==>
                  log.segs[i].totalSize - ItemSize(log.segs[i].data[|log.segs[i].data| - 1]) < st.store.maxSegmentSize)
            && (i > 0 ==> log.segs[i].base == log.segs[i - 1].Next())
            && (i < |log.segs| - 1 ==> log.segs[i].totalSize >= st.store.maxSegmentSize)
            && (log.HeadOffset() > 0 ==> |log.segs| == st.store.maxSegments)
  {
    hide Reachable, Inv, InboxOk;
    ReachableIsGood(st);
    ShapeInEveryState(st, j);
    var log := st.store.logs[j].log;
    assert SegShape(log.segs[i], log.maxSegmentSize);
    assert i > 0 ==> Joined(log.segs, i);
    assert i < |log.segs| - 1 ==> Closed(log.segs[i], log.maxSegmentSize);
  }

  /** A ready connection is queued. */
  lemma ReadyIsQueued(st: State, id: ConnectionId)
    requires Reachable(st) && id in st.sess && st.sess[id].status.Ready?
    ensures id in st.ready
  {
    hide Reachable, Inv, InboxOk;
    ReachableIsGood(st);
    QueuedAt(st, id);
  }

  /** If no key is given out again while it is still queued, a connection is in the queue once while it is
      ready and not at all while it is paused. */
  lemma QueuedOnceWhileReady(size: nat, count: nat, cfg: Config, steps: seq<Step>, st: State, id: ConnectionId)
    requires ReachedBy(size, count, cfg, steps, st) && !st.panicked && id in st.sess
    requires FreshKeys(Initial(size, count, cfg), steps)
    ensures multiset(st.ready)[id] == if st.sess[id].status.Ready? then 1 else 0
  {
    hide Run, FreshKeys, Good;
    InitialGood(size, count, cfg);
    InitialExact(size, count, cfg);
    QueueIsExact(Initial(size, count, cfg), steps, st);
  }

  /** One step makes the router panic exactly if it handles a Ready event whose connection is gone, or has a
      topic compared whose first character is longer than one byte.  If the topics it may compare are
      plain, only the first is left. */
  lemma PanicsOnlySo(st: State, step: Step)
    requires Reachable(st) && Enabled(st, step) && StepInScope(step)
    ensures Do(st, step).panicked <==> StepFails(st, step)
    ensures PlainStep(st, step) ==> (Do(st, step).panicked <==> ReadyTooLate(st, step))
  {
    hide Reachable, Enabled, Do, StepFails, PlainStep, ReadyTooLate, StepInScope, Good;
    ReachableIsGood(st);
    PanicsExactly(st, step);
    if PlainStep(st, step) {
      PlainPanicsExactly(st, step);
    }
  }
}
