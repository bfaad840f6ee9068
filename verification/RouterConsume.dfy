/** Consuming keeps the invariant: polling, forwarding, parking and pausing. */
module RouterConsume {
  import opened Basics
  import opened LogSpec
  import opened RouterTypes
  import opened StoreSpec
  import opened WindowSpec
  import opened RouterSpec
  import opened RouterInv
  import opened RouterSchedule
  import opened RouterPackets
  import opened RouterUnsubscribe
  import opened RouterForward
  import opened RouterBatch

  /** Within a poll: the polled connection is last in the queue, and its link has its first wake-up. */
  ghost predicate Polled(st: State, id: ConnectionId) {
    && Inv(st)
    && id in st.sess && Primed(st.sess[id])
    && st.ready != [] && st.ready[|st.ready| - 1] == id
  }

  // ---------------------------------------------------------------- pausing

  lemma QueueShrinks(sess: map<ConnectionId, Session>, ready: seq<ConnectionId>, inbox: seq<(ConnectionId, Event)>,
                     id: ConnectionId, s': Session)
    requires ReadyOk(sess, ready, inbox) && id in sess && ready != [] && ready[|ready| - 1] == id
    requires s'.status.Paused? && (s'.status.reason.Busy? ==> WakeUpComing(s', id, inbox))
    ensures ReadyOk(sess[id := s'], ready[..|ready| - 1], inbox)
  {
    hide WakeUpComing;
    var sess', rest := sess[id := s'], ready[..|ready| - 1];
    forall i | i in sess' ensures QueuedOk(sess'[i], i, rest, inbox) {
      if i != id {
        assert QueuedOk(sess[i], i, ready, inbox);
        if i in ready {
          var k :| 0 <= k < |ready| && ready[k] == i;
          assert rest[k] == i;
        }
      }
    }
  }

  lemma UnscheduleIsComing(s: Session, id: ConnectionId, inbox: seq<(ConnectionId, Event)>)
    ensures Unschedule in s.wire.buffer ==> WakeUpComing(s, id, inbox)
  {
  }

  lemma PauseKeepsCore(st: State, id: ConnectionId, reason: PauseReason)
    requires Core(st) && id in st.sess && st.ready != [] && st.ready[|st.ready| - 1] == id
    requires reason.Busy? ==> Unschedule in st.sess[id].wire.buffer
    requires reason.Caughtup? ==> st.sess[id].reqs == []
    ensures Core(With(st, id, st.sess[id].(status := Paused(reason))).(ready := st.ready[..|st.ready| - 1]))
  {
    hide StoreOk, WaitersOk, CountsOk, GraveOk, OutOk, TokenOf, WakeUpComing, NotesOk;
    var s := st.sess[id];
    var s' := s.(status := Paused(reason));
    assert SessionOk(st.store.logs, s);
    UnscheduleIsComing(s', id, st.inbox);
    QueueShrinks(st.sess, st.ready, st.inbox, id, s');
    SameReadingKeepsCore(st, id, s', st.ready[..|st.ready| - 1]);
  }

  lemma PauseKeepsInv(st: State, id: ConnectionId, reason: PauseReason)
    requires Polled(st, id)
    requires reason.Busy? ==> Unschedule in st.sess[id].wire.buffer
    requires reason.InflightFull? ==> |st.sess[id].out.inflight| == MAX_INFLIGHT
    requires reason.Caughtup? ==> st.sess[id].reqs == []
    ensures Inv(Pause(st, id, reason))
  {
    hide Core;
    PauseKeepsCore(st, id, reason);
    ContinuesWith(st.sess, id, st.sess[id].(status := Paused(reason)));
    OnwardKeepsInv(st, With(st, id, st.sess[id].(status := Paused(reason))).(ready := st.ready[..|st.ready| - 1]));
  }

  // ---------------------------------------------------------------- one request moves on

  lemma CountIsOne(store: Store, s: Session, id: ConnectionId, f: Text, k: nat)
    requires CountOk(store, s, [], id, f) && k < |s.reqs| && s.reqs[k].filter == f
    ensures CountReqs(s.reqs, f) == 1 && CountWaits(store.logs[store.index[f]].waiters, id, f) == 0
  {
    CountReqsZero(s.reqs, f);
  }

  /** The first request of a tracker is the only request of its connection for its filter. */
  lemma OnlyRequest(store: Store, sess: map<ConnectionId, Session>, id: ConnectionId)
    requires IndexOk(store) && CountsOk(store, sess, []) && WaitersOk(store.logs, sess)
    requires id in sess && SessionOk(store.logs, sess[id]) && sess[id].reqs != []
    ensures var s := sess[id];
            && TokenOf(store.logs, s, s.reqs[0])
            && (forall k :: 0 < k < |s.reqs| ==> s.reqs[k].filterIdx != s.reqs[0].filterIdx)
            && (forall k :: 0 <= k < |store.logs[s.reqs[0].filterIdx].waiters| ==>
                  store.logs[s.reqs[0].filterIdx].waiters[k].0 != id)
  {
    hide ReadsOk, ValidCursor, OutOk, WireOk;
    var s := sess[id];
    var r := s.reqs[0];
    assert TokenOf(store.logs, s, r);
    assert CountOk(store, s, [], id, r.filter);
    CountIsOne(store, s, id, r.filter, 0);
    CountReqsFirst(s.reqs, r.filter);
    CountReqsZero(s.reqs[1..], r.filter);
    forall k | 0 < k < |s.reqs| ensures s.reqs[k].filterIdx != r.filterIdx {
      assert s.reqs[1..][k - 1] == s.reqs[k] && TokenOf(store.logs, s, s.reqs[k]);
    }
    var ws := store.logs[r.filterIdx].waiters;
    CountWaitsZero(ws, id, r.filter);
    forall k | 0 <= k < |ws| ensures ws[k].0 != id {
      assert WaiterOk(store.logs, sess, r.filterIdx, ws[k]);
    }
  }

  /** The session after its first request has been read and put back last. */
  function Back(s: Session, s': Session, r': DataRequest): Session
    requires s.reqs != []
  {
    s'.(reqs := s.reqs[1..] + [r'])
  }

  lemma BackSession(logs: seq<Data>, s: Session, s': Session, r': DataRequest)
    requires SessionOk(logs, s) && s.reqs != [] && SessionOn(logs, s, s') && RequestOn(logs, s', s.reqs[0], r')
    requires OthersUntouched(logs, s, s.reqs[0].filterIdx, s')
    requires forall k :: 0 < k < |s.reqs| ==> s.reqs[k].filterIdx != s.reqs[0].filterIdx
    ensures SessionOk(logs, Back(s, s', r'))
  {
    hide OutOk, TokenOk, Forwards;
    var b := Back(s, s', r');
    forall k | 0 <= k < |b.reqs| ensures TokenOf(logs, b, b.reqs[k]) {
      if k < |s.reqs| - 1 {
        assert TokenOf(logs, s, s.reqs[k + 1]);
        assert TokenOf(logs, s', s.reqs[k + 1]);
      }
    }
  }

  lemma BackWaiters(logs: seq<Data>, sess: map<ConnectionId, Session>, id: ConnectionId, f: FilterIdx, b: Session)
    requires WaitersOk(logs, sess) && id in sess && f < |logs| && OthersUntouched(logs, sess[id], f, b)
    requires forall k :: 0 <= k < |logs[f].waiters| ==> logs[f].waiters[k].0 != id
    ensures WaitersOk(logs, sess[id := b])
  {
    hide TokenOf;
    var sess' := sess[id := b];
    forall j, k | 0 <= j < |logs| && 0 <= k < |logs[j].waiters|
      ensures WaiterOk(logs, sess', j, logs[j].waiters[k])
    {
      assert WaiterOk(logs, sess, j, logs[j].waiters[k]);
    }
  }

  lemma CountReqsOne(r: DataRequest, f: Text)
    ensures CountReqs([r], f) == if r.filter == f then 1 else 0
  {
    assert [r][..0] == [];
  }

  lemma BackCounts(store: Store, sess: map<ConnectionId, Session>, id: ConnectionId, s': Session, r': DataRequest)
    requires CountsOk(store, sess, []) && id in sess && sess[id].reqs != [] && r'.filter == sess[id].reqs[0].filter
    requires s'.subs == sess[id].subs
    ensures CountsOk(store, sess[id := Back(sess[id], s', r')], [])
  {
    hide CountReqs;
    var s := sess[id];
    var b := Back(s, s', r');
    forall f | f in b.subs ensures CountOk(store, b, [], id, f) {
      assert CountOk(store, s, [], id, f);
      CountReqsFirst(s.reqs, f);
      CountReqsJoin(s.reqs[1..], [r'], f);
      CountReqsOne(r', f);
    }
    CountsReplaced(store, sess, [], id, b);
  }

  lemma BackOthers(logs: seq<Data>, s: Session, f: FilterIdx, s': Session, b: Session)
    requires OthersUntouched(logs, s, f, s') && b.subs == s'.subs && b.origin == s'.origin && b.out == s'.out
    ensures OthersUntouched(logs, s, f, b)
  {
    hide TokenOk;
    forall q | TokenOf(logs, s, q) && q.filterIdx != f ensures TokenOf(logs, b, q) {
      assert TokenOf(logs, s', q);
    }
  }

  lemma BackReady(sess: map<ConnectionId, Session>, ready: seq<ConnectionId>, inbox: seq<(ConnectionId, Event)>,
                  id: ConnectionId, b: Session)
    requires ReadyOk(sess, ready, inbox) && id in sess
    requires b.status == sess[id].status && b.wire.link == sess[id].wire.link
    requires Unschedule in sess[id].wire.buffer ==> Unschedule in b.wire.buffer
    ensures ReadyOk(sess[id := b], ready, inbox)
  {
    var sess' := sess[id := b];
    forall i | i in sess' ensures QueuedOk(sess'[i], i, ready, inbox) {
      assert QueuedOk(sess[i], i, ready, inbox);
    }
  }

  /** Reading for the first request and putting it back keeps the invariant. */
  lemma BackKeepsCore(st: State, id: ConnectionId, s': Session, r': DataRequest)
    requires Core(st) && st.notes == [] && id in st.sess && st.sess[id].reqs != []
    requires SessionOn(st.store.logs, st.sess[id], s') && RequestOn(st.store.logs, s', st.sess[id].reqs[0], r')
    requires OthersUntouched(st.store.logs, st.sess[id], st.sess[id].reqs[0].filterIdx, s')
    ensures Core(With(st, id, Back(st.sess[id], s', r')))
  {
    hide OriginsOk, SessionOk, IndexOk, StoreOk, TokenOf, CountOk, QueuedOk, OutOk, WireOk, SavedOk;
    var s := st.sess[id];
    var b := Back(s, s', r');
    CoreHasIndex(st);
    OnlyRequest(st.store, st.sess, id);
    BackSession(st.store.logs, s, s', r');
    BackOthers(st.store.logs, s, s.reqs[0].filterIdx, s', b);
    assert s.reqs[0].filterIdx < |st.store.logs| by { TokenIsFiled(st.store.logs, s, s.reqs[0]); }
    BackWaiters(st.store.logs, st.sess, id, s.reqs[0].filterIdx, b);
    BackCounts(st.store, st.sess, id, s', r');
    BackReady(st.sess, st.ready, st.inbox, id, b);
    SameOrigins(st, id, b);
  }

  lemma CoreHasIndex(st: State)
    requires Core(st)
    ensures IndexOk(st.store)
  {
  }

  lemma TokenIsFiled(logs: seq<Data>, s: Session, r: DataRequest)
    requires TokenOf(logs, s, r)
    ensures r.filterIdx < |logs|
  {
  }

  lemma BackKeepsPolled(st: State, id: ConnectionId, s': Session, r': DataRequest)
    requires Polled(st, id) && st.sess[id].reqs != []
    requires SessionOn(st.store.logs, st.sess[id], s') && RequestOn(st.store.logs, s', st.sess[id].reqs[0], r')
    requires OthersUntouched(st.store.logs, st.sess[id], st.sess[id].reqs[0].filterIdx, s')
    ensures Polled(With(st, id, Back(st.sess[id], s', r')), id)
  {
    hide Core, OthersUntouched, RequestOn, OutOk, WireOk;
    var b := Back(st.sess[id], s', r');
    BackKeepsCore(st, id, s', r');
    ContinuesWith(st.sess, id, b);
    OnwardKeepsInv(st, With(st, id, b));
  }

  // ---------------------------------------------------------------- parking

  /** The last request of a tracker moves to the waiters of its log. */
  function Parked(st: State, id: ConnectionId): State
    requires id in st.sess && st.sess[id].reqs != []
    requires st.sess[id].reqs[|st.sess[id].reqs| - 1].filterIdx < |st.store.logs|
  {
    var s := st.sess[id];
    Park(With(st, id, s.(reqs := s.reqs[..|s.reqs| - 1])), id, s.reqs[|s.reqs| - 1])
  }

  function ParkedLogs(logs: seq<Data>, id: ConnectionId, r: DataRequest): seq<Data>
    requires r.filterIdx < |logs|
  {
    var d := logs[r.filterIdx];
    logs[r.filterIdx := d.(waiters := d.waiters + [(id, r)])]
  }

  lemma ParkedTokens(logs: seq<Data>, id: ConnectionId, r: DataRequest, s: Session, s': Session, q: DataRequest)
    requires r.filterIdx < |logs| && TokenOf(logs, s, q)
    requires s'.subs == s.subs && s'.origin == s.origin && s'.out == s.out
    ensures TokenOf(ParkedLogs(logs, id, r), s', q)
  {
    hide ReadsOk;
    assert ParkedLogs(logs, id, r)[q.filterIdx].log == logs[q.filterIdx].log;
  }

  lemma ParkedSessions(logs: seq<Data>, sess: map<ConnectionId, Session>, id: ConnectionId, r: DataRequest, s': Session)
    requires SessionsOk(logs, sess) && id in sess && r.filterIdx < |logs|
    requires sess[id].reqs != [] && s' == sess[id].(reqs := sess[id].reqs[..|sess[id].reqs| - 1])
    ensures SessionsOk(ParkedLogs(logs, id, r), sess[id := s'])
  {
    hide TokenOf, OutOk;
    var logs', sess', s := ParkedLogs(logs, id, r), sess[id := s'], sess[id];
    SameLogsGrow(logs, logs');
    SessionsGrow(logs, logs', sess);
    assert SessionOk(logs', s);
    forall k | 0 <= k < |s'.reqs| ensures TokenOf(logs', s', s'.reqs[k]) {
      assert TokenOf(logs, s, s.reqs[k]) by { assert SessionOk(logs, s); }
      ParkedTokens(logs, id, r, s, s', s.reqs[k]);
    }
  }

  lemma ParkedWaiters(logs: seq<Data>, sess: map<ConnectionId, Session>, id: ConnectionId, r: DataRequest, s': Session)
    requires WaitersOk(logs, sess) && id in sess && TokenOf(logs, sess[id], r) && r.cursor.1 == |logs[r.filterIdx].hist|
    requires s' == sess[id].(reqs := s'.reqs)
    ensures WaitersOk(ParkedLogs(logs, id, r), sess[id := s'])
  {
    hide TokenOf;
    TokenIsFiled(logs, sess[id], r);
    var logs', sess' := ParkedLogs(logs, id, r), sess[id := s'];
    forall j, k | 0 <= j < |logs'| && 0 <= k < |logs'[j].waiters|
      ensures WaiterOk(logs', sess', j, logs'[j].waiters[k])
    {
      var w := logs'[j].waiters[k];
      if k < |logs[j].waiters| {
        assert WaiterOk(logs, sess, j, logs[j].waiters[k]);
        ParkedTokens(logs, id, r, sess[w.0], sess'[w.0], w.1);
      } else {
        ParkedTokens(logs, id, r, sess[id], s', r);
      }
    }
  }

  lemma ParkedCount(store: Store, s: Session, i: ConnectionId, id: ConnectionId, f: Text)
    requires CountOk(store, s, [], i, f) && s.reqs != [] && IndexOk(store)
    requires s.reqs[|s.reqs| - 1].filterIdx < |store.logs|
             && store.logs[s.reqs[|s.reqs| - 1].filterIdx].filter == s.reqs[|s.reqs| - 1].filter
    ensures var n := |s.reqs| - 1;
            var store' := store.(logs := ParkedLogs(store.logs, id, s.reqs[n]));
            (i == id ==> CountOk(store', s.(reqs := s.reqs[..n]), [], i, f))
  {
    var r := s.reqs[|s.reqs| - 1];
    CountWaitsJoin(store.logs[r.filterIdx].waiters, [(id, r)], i, f);
    assert [(id, r)][..0] == [];
  }

  lemma ParkedCountOther(store: Store, s: Session, i: ConnectionId, id: ConnectionId, r: DataRequest, f: Text)
    requires CountOk(store, s, [], i, f) && r.filterIdx < |store.logs| && i != id
    ensures CountOk(store.(logs := ParkedLogs(store.logs, id, r)), s, [], i, f)
  {
    CountWaitsJoin(store.logs[r.filterIdx].waiters, [(id, r)], i, f);
    assert [(id, r)][..0] == [];
  }

  lemma ParkedCounts(store: Store, sess: map<ConnectionId, Session>, id: ConnectionId, r: DataRequest, s': Session)
    requires CountsOk(store, sess, []) && IndexOk(store) && id in sess && TokenOf(store.logs, sess[id], r)
    requires sess[id].reqs != [] && r == sess[id].reqs[|sess[id].reqs| - 1]
    requires s' == sess[id].(reqs := sess[id].reqs[..|sess[id].reqs| - 1])
    ensures CountsOk(store.(logs := ParkedLogs(store.logs, id, r)), sess[id := s'], [])
  {
    hide CountOk, ReadsOk, IndexOk, CountsOk;
    var store', sess' := store.(logs := ParkedLogs(store.logs, id, r)), sess[id := s'];
    forall i, f | i in sess' && f in sess'[i].subs ensures CountOk(store', sess'[i], [], i, f) {
      CountsAt(store, sess, i, f);
      if i == id {
        ParkedCount(store, sess[id], id, id, f);
      } else {
        ParkedCountOther(store, sess[i], i, id, r, f);
      }
    }
    CountsOf(store', sess');
  }

  lemma CountsAt(store: Store, sess: map<ConnectionId, Session>, i: ConnectionId, f: Text)
    requires CountsOk(store, sess, []) && i in sess && f in sess[i].subs
    ensures CountOk(store, sess[i], [], i, f)
  {
  }

  lemma CountsOf(store: Store, sess: map<ConnectionId, Session>)
    requires forall id, f :: id in sess && f in sess[id].subs ==> CountOk(store, sess[id], [], id, f)
    ensures CountsOk(store, sess, [])
  {
  }

  lemma ParkedGrave(store: Store, grave: map<Text, Saved>, id: ConnectionId, r: DataRequest)
    requires StoreOk(store) && GraveOk(store, grave) && r.filterIdx < |store.logs|
    ensures StoreOk(store.(logs := ParkedLogs(store.logs, id, r)))
    ensures GraveOk(store.(logs := ParkedLogs(store.logs, id, r)), grave)
  {
    var store' := store.(logs := ParkedLogs(store.logs, id, r));
    SameLogsStore(store, store'.logs);
    SameLogsGrow(store.logs, store'.logs);
    forall c | c in grave ensures SavedOk(store'.logs, store'.index, grave[c]) {
      SavedGrows(store.logs, store'.logs, store.index, store'.index, grave[c]);
    }
  }

  lemma ParkedOrigins(st: State, id: ConnectionId, r: DataRequest, s': Session)
    requires OriginsOk(st.store, st.sess, st.grave) && id in st.sess && s'.origin == st.sess[id].origin
    requires r.filterIdx < |st.store.logs|
    ensures OriginsOk(st.store.(logs := ParkedLogs(st.store.logs, id, r)), st.sess[id := s'], st.grave)
  {
    hide Begins;
    var store' := st.store.(logs := ParkedLogs(st.store.logs, id, r));
    OriginsStay(st.store, store', st.sess, st.grave);
    OriginsWith(store', st.sess, st.grave, id, s');
  }

  /** Parking a request that has read its log to the end keeps the invariant. */
  lemma ParkKeepsCore(st: State, id: ConnectionId)
    requires Core(st) && st.notes == [] && id in st.sess && st.sess[id].reqs != []
    requires var r := st.sess[id].reqs[|st.sess[id].reqs| - 1];
             r.filterIdx < |st.store.logs| && r.cursor.1 == |st.store.logs[r.filterIdx].hist|
    ensures Core(Parked(st, id))
  {
    hide SessionOk, IndexOk, StoreOk, TokenOf, CountOk, QueuedOk, SavedOk, WaiterOk, OriginsOk;
    var s := st.sess[id];
    var n := |s.reqs| - 1;
    var r, s' := s.reqs[n], s.(reqs := s.reqs[..n]);
    CoreHasIndex(st);
    TrackedIsOk(st.store.logs, st.sess, id, n);
    ParkedSessions(st.store.logs, st.sess, id, r, s');
    ParkedWaiters(st.store.logs, st.sess, id, r, s');
    ParkedCounts(st.store, st.sess, id, r, s');
    ParkedGrave(st.store, st.grave, id, r);
    ParkedOrigins(st, id, r, s');
    BackReady(st.sess, st.ready, st.inbox, id, s');
  }

  lemma TrackedIsOk(logs: seq<Data>, sess: map<ConnectionId, Session>, id: ConnectionId, k: nat)
    requires SessionsOk(logs, sess) && id in sess && k < |sess[id].reqs|
    ensures TokenOf(logs, sess[id], sess[id].reqs[k])
  {
    assert SessionOk(logs, sess[id]);
  }

  lemma ParkKeepsPolled(st: State, id: ConnectionId)
    requires Polled(st, id) && st.sess[id].reqs != []
    requires var r := st.sess[id].reqs[|st.sess[id].reqs| - 1];
             r.filterIdx < |st.store.logs| && r.cursor.1 == |st.store.logs[r.filterIdx].hist|
    ensures Polled(Parked(st, id), id)
  {
    hide Core;
    var s := st.sess[id];
    ParkKeepsCore(st, id);
    ContinuesWith(st.sess, id, s.(reqs := s.reqs[..|s.reqs| - 1]));
    OnwardKeepsInv(st, Parked(st, id));
  }

  // ---------------------------------------------------------------- consuming

  lemma PolledFirst(st: State, id: ConnectionId)
    requires Polled(st, id) && st.sess[id].reqs != []
    ensures var s := st.sess[id];
            var r := s.reqs[0];
            && OutOk(st.store.logs, s.out) && WireOk(s) && Primed(s) && TokenOf(st.store.logs, s, r)
            && Holds(st.store.logs[r.filterIdx].log, st.store.logs[r.filterIdx].hist)
            && |s.out.inflight| <= MAX_INFLIGHT && st.cfg.maxOutgoing >= 1
            && RetainedOk(st.store.retained, st.store.accepted)
  {
    hide TokenOk, CountsOk, ReadyOk, WaitersOk, RetainedOk;
    var s := st.sess[id];
    assert SessionOk(st.store.logs, s);
    assert TokenOf(st.store.logs, s, s.reqs[0]);
    assert DataHist(st.store.logs[s.reqs[0].filterIdx], st.store.accepted);
  }

  lemma WithTwice(st: State, id: ConnectionId, a: Session, b: Session)
    ensures With(With(st, id, a), id, b) == With(st, id, b)
  {
    assert st.sess[id := a][id := b] == st.sess[id := b];
  }

  lemma ParkedBack(st: State, id: ConnectionId, s': Session, r': DataRequest)
    requires id in st.sess && st.sess[id].reqs != [] && r'.filterIdx < |st.store.logs|
    ensures Parked(With(st, id, Back(st.sess[id], s', r')), id)
            == Park(With(st, id, s'.(reqs := st.sess[id].reqs[1..])), id, r')
  {
    var b := Back(st.sess[id], s', r');
    assert b.reqs[..|b.reqs| - 1] == st.sess[id].reqs[1..];
    WithTwice(st, id, b, b.(reqs := b.reqs[..|b.reqs| - 1]));
  }

  // ---------------------------------------------------------------- where a poll panics

  /** The connection's first request is to read the retained messages, and one of them has a topic that
      cannot be compared. */
  predicate RequestFails(st: State, id: ConnectionId) {
    && id in st.sess && st.sess[id].reqs != []
    && ForwardFails(st.sess[id], st.sess[id].reqs[0], st.store)
  }

  /** The loop over the requests comes to such a request. */
  predicate LoopFails(st: State, id: ConnectionId, n: nat)
    decreases n
  {
    n > 0 && (RequestFails(st, id) || (ConsumeOne(st, id).1 && LoopFails(ConsumeOne(st, id).0, id, n - 1)))
  }

  /** The state in which a poll starts on the requests of the connection it takes. */
  function PollStart(st: State): State
    requires st.ready != [] && st.ready[0] in st.sess
  {
    var id := st.ready[0];
    With(st.(ready := st.ready[1..] + [id]), id, AckDeviceData(st.sess[id]))
  }

  predicate PollFails(st: State) {
    st.ready != [] && st.ready[0] in st.sess && LoopFails(PollStart(st), st.ready[0], MAX_SCHEDULE_ITERATIONS)
  }

  lemma RequestPanics(st: State, id: ConnectionId)
    requires RequestFails(st, id)
    ensures ConsumeOne(st, id).0.panicked && !ConsumeOne(st, id).1
  {
    hide ForwardFails, ForwardData;
  }

  lemma {:induction false} LoopPanics(st: State, id: ConnectionId, n: nat)
    requires LoopFails(st, id, n)
    ensures ConsumeLoop(st, id, n).panicked
    decreases n
  {
    hide ConsumeOne, RequestFails;
    if RequestFails(st, id) {
      RequestPanics(st, id);
    } else {
      LoopPanics(ConsumeOne(st, id).0, id, n - 1);
    }
  }

  lemma PollPanics(st: State)
    requires PollFails(st)
    ensures Consume(st).panicked
  {
    hide ConsumeLoop, LoopFails, AckDeviceData;
    LoopPanics(PollStart(st), st.ready[0], MAX_SCHEDULE_ITERATIONS);
  }

  /** One request: the state is still in order, and still within the poll if the loop goes on. */
  lemma ConsumeOneKeeps(st: State, id: ConnectionId)
    requires Polled(st, id) && !RequestFails(st, id)
    ensures Inv(ConsumeOne(st, id).0)
    ensures ConsumeOne(st, id).1 ==> Polled(ConsumeOne(st, id).0, id)
  {
    hide Inv, Primed, ForwardData, ForwardFails, TokenOk, OutOk, WireOk, Pause, SessionOn, Holds, OthersUntouched,
         RetainedOk;
    if st.sess[id].reqs == [] {
      PauseKeepsInv(st, id, Caughtup);
    } else {
      PolledFirst(st, id);
      var r := st.sess[id].reqs[0];
      var (s', r', status) := ForwardData(st.sess[id], r, st.store, st.cfg);
      ForwardKeeps(st.store, st.sess[id], r, st.cfg);
      BackKeepsPolled(st, id, s', r');
      var back := With(st, id, Back(st.sess[id], s', r'));
      match status
      case BufferFull => PauseKeepsInv(back, id, Busy);
      case WindowFull => PauseKeepsInv(back, id, InflightFull);
      case FilterCaughtup =>
        ParkKeepsPolled(back, id);
        ParkedBack(st, id, s', r');
      case PartialRead =>
    }
  }

  lemma {:induction false} ConsumeLoopKeeps(st: State, id: ConnectionId, n: nat)
    requires Polled(st, id) && !LoopFails(st, id, n)
    ensures Inv(ConsumeLoop(st, id, n))
    decreases n
  {
    hide Inv, Primed, ConsumeOne, RequestFails;
    if n > 0 {
      ConsumeOneKeeps(st, id);
      var (next, goOn) := ConsumeOne(st, id);
      if goOn {
        ConsumeLoopKeeps(next, id, n - 1);
      }
    }
  }

  lemma QueueTurns(sess: map<ConnectionId, Session>, ready: seq<ConnectionId>, inbox: seq<(ConnectionId, Event)>,
                   more: seq<ConnectionId>)
    requires ReadyOk(sess, ready, inbox) && ready != [] && (ready[0] in more || ready[0] !in sess)
    ensures ReadyOk(sess, ready[1..] + more, inbox)
  {
    var ready' := ready[1..] + more;
    forall i | i in sess ensures QueuedOk(sess[i], i, ready', inbox) {
      assert QueuedOk(sess[i], i, ready, inbox);
      if i in ready && i != ready[0] {
        var k :| 0 <= k < |ready| && ready[k] == i;
        assert ready'[k - 1] == i;
      }
    }
  }

  lemma PollReady(st: State)
    requires Core(st) && st.ready != [] && st.ready[0] in st.sess
    ensures var id := st.ready[0];
            var s' := AckDeviceData(st.sess[id]);
            && WireOk(s') && Primed(s') && StatusOk(s')
            && ReadyOk(st.sess[id := s'], st.ready[1..] + [id], st.inbox)
  {
    hide OutOk, TokenOk, CountsOk, StoreOk, WaitersOk, GraveOk, QueuedOk;
    var id := st.ready[0];
    var s := st.sess[id];
    assert SessionOk(st.store.logs, s);
    AckedWireOk(s);
    QueueTurns(st.sess, st.ready, st.inbox, [id]);
    BackReady(st.sess, st.ready[1..] + [id], st.inbox, id, AckDeviceData(s));
  }

  lemma PollStarts(st: State)
    requires Inv(st) && st.ready != [] && st.ready[0] in st.sess
    ensures Polled(PollStart(st), st.ready[0])
  {
    hide Core, ReadyOk, WireOk, Primed;
    var id := st.ready[0];
    var s' := AckDeviceData(st.sess[id]);
    PollReady(st);
    SameReadingKeepsCore(st, id, s', st.ready[1..] + [id]);
    ContinuesWith(st.sess, id, s');
    OnwardKeepsInv(st, With(st.(ready := st.ready[1..] + [id]), id, s'));
    assert st.(ready := st.ready[1..] + [id]).sess == st.sess;
  }

  lemma StaleKeepsInv(st: State)
    requires Inv(st) && st.ready != [] && st.ready[0] !in st.sess
    ensures Inv(st.(ready := st.ready[1..]))
  {
    hide SessionsOk, WaitersOk, CountsOk, StoreOk, GraveOk;
    QueueTurns(st.sess, st.ready, st.inbox, []);
    assert st.ready[1..] + [] == st.ready[1..];
  }

  /** A poll of the ready queue keeps the invariant, also when it takes the key of a connection that is
      gone, or an old entry under a key that has been given out again. */
  lemma ConsumeKeepsInv(st: State)
    requires Inv(st) && !PollFails(st)
    ensures Inv(Consume(st))
  {
    hide Inv, Polled, ConsumeLoop, AckDeviceData, LoopFails;
    if st.ready != [] {
      var id := st.ready[0];
      if id in st.sess {
        PollStarts(st);
        ConsumeLoopKeeps(PollStart(st), id, MAX_SCHEDULE_ITERATIONS);
      } else {
        StaleKeepsInv(st);
      }
    }
  }
}
