/** Dropping a connection saves its session; connecting again restores it. */
module RouterSessions {
  import opened Basics
  import opened LogSpec
  import opened LogReader
  import opened RouterTypes
  import opened StoreSpec
  import opened WindowSpec
  import opened RouterSpec
  import opened RouterInv
  import opened RouterSchedule
  import opened RouterPublish
  import opened RouterUnsubscribe

  // ---------------------------------------------------------------- removing all waiters

  /** All waiters of a connection come out, as often as they were in; the others stay. */
  lemma {:induction false} RemoveWaitersCount(ws: seq<Waiter>, id: ConnectionId, i: ConnectionId, f: Text)
    ensures var (rest, reqs) := RemoveWaiters(ws, id);
            && CountWaits(rest, i, f) == (if i == id then 0 else CountWaits(ws, i, f))
            && CountReqs(reqs, f) == CountWaits(ws, id, f)
    decreases |ws|
  {
    var k := FirstWaiter(ws, id);
    if k == |ws| {
      CountWaitsZero(ws, id, f);
    } else {
      RemoveWaitersCount(SwapRemove(ws, k), id, i, f);
      SwapRemoveCount(ws, k, i, f);
      SwapRemoveCount(ws, k, id, f);
      var more := RemoveWaiters(SwapRemove(ws, k), id).1;
      CountReqsFirst([ws[k].1] + more, f);
      assert ([ws[k].1] + more)[1..] == more;
    }
  }

  lemma {:induction false} RemoveWaitersKept(ws: seq<Waiter>, id: ConnectionId, k: nat)
    requires k < |RemoveWaiters(ws, id).0|
    ensures RemoveWaiters(ws, id).0[k] in ws && RemoveWaiters(ws, id).0[k].0 != id
    decreases |ws|
  {
    var i := FirstWaiter(ws, id);
    if i < |ws| {
      var less := SwapRemove(ws, i);
      RemoveWaitersKept(less, id, k);
      var n :| 0 <= n < |less| && less[n] == RemoveWaiters(less, id).0[k];
      var m := SwapRemoveElements(ws, i, n);
    }
  }

  lemma {:induction false} RemoveWaitersTaken(ws: seq<Waiter>, id: ConnectionId, k: nat)
    requires k < |RemoveWaiters(ws, id).1|
    ensures (id, RemoveWaiters(ws, id).1[k]) in ws
    decreases |ws|
  {
    var i := FirstWaiter(ws, id);
    if i < |ws| {
      var less := SwapRemove(ws, i);
      if k == 0 {
        assert ws[i] == (id, ws[i].1);
      } else {
        RemoveWaitersTaken(less, id, k - 1);
        var n :| 0 <= n < |less| && less[n] == (id, RemoveWaiters(less, id).1[k - 1]);
        var m := SwapRemoveElements(ws, i, n);
      }
    }
  }

  lemma {:induction false} CleanLogsAt(logs: seq<Data>, id: ConnectionId, j: nat)
    requires j < |logs|
    ensures CleanLogs(logs, id).0[j] == logs[j].(waiters := RemoveWaiters(logs[j].waiters, id).0)
  {
    if j > 0 {
      CleanLogsAt(logs[1..], id, j - 1);
    }
  }

  lemma CleanLogsSame(logs: seq<Data>, id: ConnectionId)
    ensures SameLogs(logs, CleanLogs(logs, id).0)
  {
    forall j | 0 <= j < |logs|
      ensures CleanLogs(logs, id).0[j] == logs[j].(waiters := CleanLogs(logs, id).0[j].waiters)
    {
      CleanLogsAt(logs, id, j);
    }
  }

  lemma {:induction false} CleanedCountNone(logs: seq<Data>, id: ConnectionId, f: Text)
    requires Tagged(logs) && forall j :: 0 <= j < |logs| ==> logs[j].filter != f
    ensures CountReqs(CleanLogs(logs, id).1, f) == 0
  {
    if logs != [] {
      var rest := logs[1..];
      assert forall j :: 0 <= j < |rest| ==> rest[j] == logs[j + 1];
      CleanedCountNone(rest, id, f);
      RemoveWaitersCount(logs[0].waiters, id, id, f);
      CountWaitsZero(logs[0].waiters, id, f);
      CountReqsJoin(RemoveWaiters(logs[0].waiters, id).1, CleanLogs(rest, id).1, f);
    }
  }

  lemma {:induction false} CleanedCount(logs: seq<Data>, id: ConnectionId, j: nat)
    requires Tagged(logs) && j < |logs|
    requires forall i :: 0 <= i < |logs| && logs[i].filter == logs[j].filter ==> i == j
    ensures CountReqs(CleanLogs(logs, id).1, logs[j].filter) == CountWaits(logs[j].waiters, id, logs[j].filter)
  {
    hide RemoveWaiters, CountWaits, CountReqs;
    var f, rest := logs[j].filter, logs[1..];
    assert forall i :: 0 <= i < |rest| ==> rest[i] == logs[i + 1];
    RemoveWaitersCount(logs[0].waiters, id, id, f);
    CountReqsJoin(RemoveWaiters(logs[0].waiters, id).1, CleanLogs(rest, id).1, f);
    if j == 0 {
      CleanedCountNone(rest, id, f);
    } else {
      CountWaitsZero(logs[0].waiters, id, f);
      CleanedCount(rest, id, j - 1);
    }
  }

  lemma {:induction false} CleanedFrom(logs: seq<Data>, id: ConnectionId, k: nat)
    requires k < |CleanLogs(logs, id).1|
    ensures IsWaiter(logs, (id, CleanLogs(logs, id).1[k]))
  {
    var taken := RemoveWaiters(logs[0].waiters, id).1;
    if k < |taken| {
      RemoveWaitersTaken(logs[0].waiters, id, k);
      var n :| 0 <= n < |logs[0].waiters| && logs[0].waiters[n] == (id, taken[k]);
    } else {
      var rest := logs[1..];
      CleanedFrom(rest, id, k - |taken|);
      var j, n :| 0 <= j < |rest| && 0 <= n < |rest[j].waiters|
          && rest[j].waiters[n] == (id, CleanLogs(rest, id).1[k - |taken|]);
      assert logs[j + 1].waiters[n] == (id, CleanLogs(logs, id).1[k]);
    }
  }

  // ---------------------------------------------------------------- the saved requests

  lemma {:induction false} RewindCount(rs: seq<DataRequest>, inflight: seq<Inflight>, f: Text)
    ensures CountReqs(Rewind(rs, inflight), f) == CountReqs(rs, f)
  {
    if rs != [] {
      var n := |rs| - 1;
      RewindCount(rs[..n], inflight, f);
      assert Rewind(rs, inflight)[..n] == Rewind(rs[..n], inflight);
    }
  }

  lemma {:induction false} RestartedKeeps(origin: map<Text, Origin>, rs: seq<DataRequest>, f: Text)
    requires f in origin
    ensures f in Restarted(origin, rs)
    ensures Restarted(origin, rs)[f].first == origin[f].first && Restarted(origin, rs)[f].since == origin[f].since
  {
    if rs != [] {
      RestartedKeeps(origin, rs[..|rs| - 1], f);
    }
  }

  lemma {:induction false} RestartedHasNoMore(origin: map<Text, Origin>, rs: seq<DataRequest>)
    ensures Restarted(origin, rs).Keys == origin.Keys
  {
    if rs != [] {
      RestartedHasNoMore(origin, rs[..|rs| - 1]);
    }
  }

  lemma RestartedBegins(store: Store, origin: map<Text, Origin>, rs: seq<DataRequest>)
    requires AllBegin(store, origin)
    ensures AllBegin(store, Restarted(origin, rs))
  {
    RestartedHasNoMore(origin, rs);
    forall f | f in Restarted(origin, rs) ensures Begins(store, f, Restarted(origin, rs)[f]) {
      RestartedKeeps(origin, rs, f);
    }
  }

  lemma {:induction false} RestartedAt(origin: map<Text, Origin>, rs: seq<DataRequest>, k: nat)
    requires k < |rs| && rs[k].filter in origin && CountReqs(rs, rs[k].filter) == 1
    ensures rs[k].filter in Restarted(origin, rs)
    ensures Restarted(origin, rs)[rs[k].filter] ==
            origin[rs[k].filter].(start := rs[k].cursor.1, mark := 0, owed := rs[k].forwardRetained)
  {
    var n := |rs| - 1;
    RestartedKeeps(origin, rs[..n], rs[k].filter);
    if k < n {
      CountReqsZero(rs[..n], rs[k].filter);
      assert rs[..n][k] == rs[k];
      RestartedAt(origin, rs[..n], k);
    }
  }

  lemma RewoundPassed(logs: seq<Data>, out: Out, r: DataRequest)
    requires OutOk(logs, out) && Passed(out.ledger, r.filterIdx, r.cursor.1)
    ensures Passed(out.ledger, r.filterIdx, RewindOne(r, out.inflight).cursor.1)
  {
    hide LedgerIn, Window, TakenBy;
    RetransmissionIsLeast(out.inflight, r.filterIdx);
    if Retransmission(out.inflight, r.filterIdx).Some? {
      var c := RewindOne(r, out.inflight).cursor;
      var i :| 0 <= i < |out.inflight| && out.inflight[i].filterIdx == r.filterIdx && out.inflight[i].cursor == Some(c);
      forall place | place in out.ledger.acked + out.ledger.lost && place.0 == r.filterIdx ensures place.1 < c.1 {
      }
    }
  }

  lemma RewoundValid(logs: seq<Data>, s: Session, r: DataRequest)
    requires OutOk(logs, s.out) && TokenOf(logs, s, r)
    ensures ValidCursor(logs[r.filterIdx].log, RewindOne(r, s.out.inflight).cursor)
  {
    hide LedgerOk, LedgerIn, Window, ReadsOk;
    RetransmissionIsLeast(s.out.inflight, r.filterIdx);
    if Retransmission(s.out.inflight, r.filterIdx).Some? {
      var c := RewindOne(r, s.out.inflight).cursor;
      var i :| 0 <= i < |s.out.inflight| && s.out.inflight[i].filterIdx == r.filterIdx
               && s.out.inflight[i].cursor == Some(c);
      assert InflightOk(logs, s.out.inflight[i]);
    }
  }

  lemma RewoundAccount(out: Out, r: DataRequest, first: nat)
    requires Ordered(out.inflight) && Settled(first, r.cursor.1, out, r.filterIdx)
    requires Below(out.inflight, r.filterIdx, r.cursor.1)
    ensures RewindOne(r, out.inflight).cursor.1 <= r.cursor.1
    ensures Settled(first, RewindOne(r, out.inflight).cursor.1, EmptyOut(out.unackedPubrels, out.ledger), r.filterIdx)
  {
    hide Ordered;
    var f, inflight := r.filterIdx, out.inflight;
    var c := RewindOne(r, inflight).cursor;
    RetransmissionIsLeast(inflight, f);
    if Retransmission(inflight, f).Some? {
      var i :| 0 <= i < |inflight| && inflight[i].filterIdx == f && inflight[i].cursor == Some(c);
    }
    forall p: nat | first <= p < c.1 ensures Accounted(EmptyOut(out.unackedPubrels, out.ledger), f, p) {
      assert Accounted(out, f, p);
      NotWaitingBefore(inflight, f, c.1, p);
    }
  }

  /** A rewound request stands at a good cursor, what has left the window is behind it, and everything
      before it is settled for good. */
  lemma RewoundIsSettled(logs: seq<Data>, s: Session, r: DataRequest)
    requires OutOk(logs, s.out) && TokenOf(logs, s, r)
    ensures var r' := RewindOne(r, s.out.inflight);
            && ValidCursor(logs[r.filterIdx].log, r'.cursor)
            && Passed(s.out.ledger, r.filterIdx, r'.cursor.1)
            && (!r.qos.AtMostOnce? ==>
                  Settled(s.origin[r.filter].first, r'.cursor.1, EmptyOut(s.out.unackedPubrels, s.out.ledger),
                          r.filterIdx))
  {
    hide RewindOne, LedgerOk, LedgerIn, Window, Settled, Passed, Delivered;
    RewoundPassed(logs, s.out, r);
    RewoundValid(logs, s, r);
    if !r.qos.AtMostOnce? {
      RewoundAccount(s.out, r, s.origin[r.filter].first);
    }
  }

  lemma NotWaitingBefore(inflight: seq<Inflight>, f: FilterIdx, bound: nat, p: nat)
    requires p < bound
    requires forall i :: 0 <= i < |inflight| && inflight[i].filterIdx == f && inflight[i].cursor.Some? ==>
               bound <= inflight[i].cursor.value.1
    ensures !Waits(inflight, f, p)
  {
  }

  // ---------------------------------------------------------------- dropping a connection

  /** The requests of a connection when it is dropped: those in its tracker and those that waited. */
  function Gathered(logs: seq<Data>, s: Session, id: ConnectionId): seq<DataRequest> {
    s.reqs + CleanLogs(logs, id).1
  }

  lemma ParkedOk(logs: seq<Data>, sess: map<ConnectionId, Session>, id: ConnectionId, k: nat)
    requires id in sess && WaitersOk(logs, sess) && k < |CleanLogs(logs, id).1|
    ensures TokenOf(logs, sess[id], CleanLogs(logs, id).1[k])
  {
    hide TokenOk, CleanLogs;
    var r := CleanLogs(logs, id).1[k];
    CleanedFrom(logs, id, k);
    var j, n :| 0 <= j < |logs| && 0 <= n < |logs[j].waiters| && logs[j].waiters[n] == (id, r);
    assert WaiterOk(logs, sess, j, logs[j].waiters[n]);
  }

  lemma GatheredOk(logs: seq<Data>, sess: map<ConnectionId, Session>, id: ConnectionId, k: nat)
    requires id in sess && SessionOk(logs, sess[id]) && WaitersOk(logs, sess)
    requires k < |Gathered(logs, sess[id], id)|
    ensures TokenOf(logs, sess[id], Gathered(logs, sess[id], id)[k])
  {
    hide TokenOf, OutOk, WireOk, CleanLogs;
    var s := sess[id];
    if k < |s.reqs| {
      assert TokenOf(logs, s, s.reqs[k]);
    } else {
      ParkedOk(logs, sess, id, k - |s.reqs|);
    }
  }

  lemma GatheredCount(store: Store, sess: map<ConnectionId, Session>, id: ConnectionId, f: Text)
    requires IndexOk(store) && Tagged(store.logs) && id in sess && CountOk(store, sess[id], [], id, f)
    ensures CountReqs(Gathered(store.logs, sess[id], id), f) == 1
  {
    CountReqsJoin(sess[id].reqs, CleanLogs(store.logs, id).1, f);
    CleanedCount(store.logs, id, store.index[f]);
  }

  lemma SavedTokenIsOk(store: Store, sess: map<ConnectionId, Session>, id: ConnectionId, k: nat)
    requires StoreOk(store) && WaitersOk(store.logs, sess) && id in sess && SessionOk(store.logs, sess[id])
    requires CountsOk(store, sess, [])
    requires k < |Gathered(store.logs, sess[id], id)|
    ensures var v := SaveState(sess[id], CleanLogs(store.logs, id).1);
            |v.reqs| == |Gathered(store.logs, sess[id], id)| && SavedTokenOk(store.logs, v, v.reqs[k])
  {
    hide OutOk, WireOk, CleanLogs, ReadsOk, Restarted, CountReqs, RewindOne, IndexOk, CacheOk, HistOk, ShapesOk;
    var s, logs := sess[id], store.logs;
    var all := Gathered(logs, s, id);
    var r := all[k];
    GatheredOk(logs, sess, id, k);
    WaitersAreTagged(logs, sess);
    assert CountOk(store, s, [], id, r.filter);
    GatheredCount(store, sess, id, r.filter);
    RewindCount(all, s.out.inflight, r.filter);
    RewoundSame(r, s.out.inflight);
    RestartedAt(s.origin, Rewind(all, s.out.inflight), k);
    RewoundIsSettled(logs, s, r);
    RewoundReads(Restarted(s.origin, Rewind(all, s.out.inflight))[r.filter], s.out, RewindOne(r, s.out.inflight));
  }

  lemma RewoundSame(r: DataRequest, inflight: seq<Inflight>)
    ensures RewindOne(r, inflight) == r.(cursor := RewindOne(r, inflight).cursor)
  {
  }

  /** A request that starts at its cursor has been given nothing yet. */
  lemma RewoundReads(o: Origin, out: Out, r: DataRequest)
    requires o.start == r.cursor.1 && o.mark == 0 && o.owed == r.forwardRetained
    requires Passed(out.ledger, r.filterIdx, r.cursor.1)
    requires !r.qos.AtMostOnce? ==>
               Settled(o.first, r.cursor.1, EmptyOut(out.unackedPubrels, out.ledger), r.filterIdx)
    ensures ReadsOk(o, EmptyOut(out.unackedPubrels, out.ledger), r)
  {
    hide Settled, Passed;
  }

  /** The saved session has one request for each of its subscriptions, as far along as the connection
      has settled. */
  lemma SavedOutOk(logs: seq<Data>, out: Out)
    requires OutOk(logs, out)
    ensures OutOk(logs, EmptyOut(out.unackedPubrels, out.ledger))
  {
    assert out.ledger.taken[|out.ledger.taken|..] == [];
  }

  lemma SavedIsOk(store: Store, sess: map<ConnectionId, Session>, id: ConnectionId)
    requires StoreOk(store) && WaitersOk(store.logs, sess) && id in sess && SessionOk(store.logs, sess[id])
    requires CountsOk(store, sess, [])
    ensures SavedOk(store.logs, store.index, SaveState(sess[id], CleanLogs(store.logs, id).1))
  {
    hide OutOk, WireOk, CleanLogs, TokenOf, SavedTokenOk, Restarted, CacheOk, HistOk, ShapesOk;
    var s, all := sess[id], Gathered(store.logs, sess[id], id);
    var v := SaveState(s, CleanLogs(store.logs, id).1);
    SavedOutOk(store.logs, s.out);
    forall k | 0 <= k < |v.reqs| ensures SavedTokenOk(store.logs, v, v.reqs[k]) {
      SavedTokenIsOk(store, sess, id, k);
    }
    WaitersAreTagged(store.logs, sess);
    forall f | f in v.subs ensures f in store.index && CountReqs(v.reqs, f) == 1 {
      assert CountOk(store, s, [], id, f);
      GatheredCount(store, sess, id, f);
      RewindCount(all, s.out.inflight, f);
    }
  }

  lemma OthersSessions(logs: seq<Data>, sess: map<ConnectionId, Session>, id: ConnectionId)
    requires SessionsOk(logs, sess)
    ensures SessionsOk(CleanLogs(logs, id).0, sess - {id})
  {
    CleanLogsSame(logs, id);
    SameLogsGrow(logs, CleanLogs(logs, id).0);
    SessionsGrow(logs, CleanLogs(logs, id).0, sess);
  }

  lemma OthersWaiters(logs: seq<Data>, sess: map<ConnectionId, Session>, id: ConnectionId)
    requires WaitersOk(logs, sess)
    ensures WaitersOk(CleanLogs(logs, id).0, sess - {id})
  {
    hide ReadsOk, ValidCursor, CleanLogs, RemoveWaiters;
    var logs' := CleanLogs(logs, id).0;
    CleanLogsSame(logs, id);
    SameLogsGrow(logs, logs');
    forall j, k | 0 <= j < |logs'| && 0 <= k < |logs'[j].waiters|
      ensures WaiterOk(logs', sess - {id}, j, logs'[j].waiters[k])
    {
      CleanLogsAt(logs, id, j);
      RemoveWaitersKept(logs[j].waiters, id, k);
      var w := logs'[j].waiters[k];
      var m :| 0 <= m < |logs[j].waiters| && logs[j].waiters[m] == w;
      assert WaiterOk(logs, sess, j, logs[j].waiters[m]);
      TokenGrows(logs, logs', sess[w.0], w.1);
    }
  }

  lemma OthersCounts(store: Store, sess: map<ConnectionId, Session>, id: ConnectionId)
    requires CountsOk(store, sess, [])
    ensures CountsOk(store.(logs := CleanLogs(store.logs, id).0), sess - {id}, [])
  {
    var store' := store.(logs := CleanLogs(store.logs, id).0);
    forall i, f | i in sess - {id} && f in (sess - {id})[i].subs ensures CountOk(store', sess[i], [], i, f) {
      assert CountOk(store, sess[i], [], i, f);
      CleanLogsAt(store.logs, id, store.index[f]);
      RemoveWaitersCount(store.logs[store.index[f]].waiters, id, i, f);
    }
  }

  lemma OthersReady(sess: map<ConnectionId, Session>, ready: seq<ConnectionId>, inbox: seq<(ConnectionId, Event)>,
                    id: ConnectionId)
    requires ReadyOk(sess, ready, inbox)
    ensures ReadyOk(sess - {id}, ready, inbox)
  {
    var sess' := sess - {id};
    forall i | i in sess' ensures QueuedOk(sess'[i], i, ready, inbox) {
      assert QueuedOk(sess[i], i, ready, inbox);
    }
  }

  lemma GraveAfter(store: Store, sess: map<ConnectionId, Session>, grave: map<Text, Saved>, id: ConnectionId)
    requires StoreOk(store) && WaitersOk(store.logs, sess) && id in sess && SessionOk(store.logs, sess[id])
    requires CountsOk(store, sess, []) && GraveOk(store, grave)
    ensures var (logs, parked) := CleanLogs(store.logs, id);
            var s := sess[id];
            var grave' := if s.clean then grave - {s.client} else grave[s.client := SaveState(s, parked)];
            forall c :: c in grave' ==> SavedOk(logs, store.index, grave'[c])
  {
    hide StoreOk, WaitersOk, CountsOk, SessionOk, SavedOk, SaveState, CleanLogs;
    var (logs, parked) := CleanLogs(store.logs, id);
    var s := sess[id];
    var v := SaveState(s, parked);
    SavedIsOk(store, sess, id);
    CleanLogsSame(store.logs, id);
    SameLogsGrow(store.logs, logs);
    SavedGrows(store.logs, logs, store.index, store.index, v);
    forall c | c in grave ensures SavedOk(logs, store.index, grave[c]) {
      SavedGrows(store.logs, logs, store.index, store.index, grave[c]);
    }
  }

  lemma DisconnectionOrigins(st: State, id: ConnectionId)
    requires OriginsOk(st.store, st.sess, st.grave) && id in st.sess
    ensures var st' := HandleDisconnection(st, id); OriginsOk(st'.store, st'.sess, st'.grave)
  {
    hide CleanLogs, Restarted, Begins;
    var s := st.sess[id];
    var (logs, parked) := CleanLogs(st.store.logs, id);
    var store' := st.store.(logs := logs);
    CleanLogsSame(st.store.logs, id);
    OriginsStay(st.store, store', st.sess, st.grave);
    RestartedBegins(store', s.origin, Rewind(s.reqs + parked, s.out.inflight));
  }

  /** Dropping a connection keeps the invariant for the others. */
  lemma DisconnectionKeepsCore(st: State, id: ConnectionId)
    requires Core(st) && st.notes == []
    ensures Core(HandleDisconnection(st, id)) && HandleDisconnection(st, id).notes == []
  {
    hide OutOk, TokenOf, WireOk, WaiterOk, SavedOk, CountOk, QueuedOk, StoreOk, OriginsOk, SaveState, CleanLogs;
    if id in st.sess {
      DisconnectionOrigins(st, id);
      assert SessionOk(st.store.logs, st.sess[id]);
      CleanLogsSame(st.store.logs, id);
      SameLogsStore(st.store, CleanLogs(st.store.logs, id).0);
      OthersSessions(st.store.logs, st.sess, id);
      OthersWaiters(st.store.logs, st.sess, id);
      OthersCounts(st.store, st.sess, id);
      OthersReady(st.sess, st.ready, st.inbox, id);
      GraveAfter(st.store, st.sess, st.grave, id);
    }
  }

  /** Windows are in order, but for one connection. */
  ghost predicate FullBut(sess: map<ConnectionId, Session>, id: ConnectionId) {
    forall i :: i in sess && i != id ==> FullOk(sess[i])
  }

  lemma DroppedClient(sess: map<ConnectionId, Session>, byClient: map<Text, ConnectionId>, id: ConnectionId)
    requires ClientsOk(sess, byClient) && id in sess
    ensures ClientsOk(sess - {id}, byClient - {sess[id].client})
  {
  }

  lemma DisconnectionKeepsInv(st: State, id: ConnectionId)
    requires Core(st) && st.notes == [] && ClientsOk(st.sess, st.byClient) && FullBut(st.sess, id)
    ensures Inv(HandleDisconnection(st, id))
  {
    DisconnectionKeepsCore(st, id);
    if id in st.sess {
      DroppedClient(st.sess, st.byClient, id);
      var sess := st.sess - {id};
      forall i | i in sess ensures FullOk(sess[i]) {
        assert FullOk(st.sess[i]);
      }
      assert HandleDisconnection(st, id).sess == sess;
    }
  }

  // ---------------------------------------------------------------- connecting

  /** A restored request reads on from where it was saved. */
  lemma RestoredTokenOk(logs: seq<Data>, v: Saved, s: Session, r: DataRequest)
    requires SavedTokenOk(logs, v, r)
    requires s.subs == v.subs && s.origin == v.origin && s.out == EmptyOut(v.unackedPubrels, v.ledger)
    ensures TokenOf(logs, s, r)
  {
    hide TokenOk;
  }

  lemma NothingOk(logs: seq<Data>)
    ensures OutOk(logs, EmptyOut([], NO_LEDGER))
  {
    hide TakenBy, LogPlace, PkidAt, Entering, EntriesOf, InflightOk, SentOk;
    var out := EmptyOut([], NO_LEDGER);
    forall place, right ensures !TakenBy(out.ledger.taken, place, right) {
      NothingTaken(place, right);
    }
    assert EnteredOk(out) by { NothingEntered(); }
  }

  lemma NothingTaken(place: (FilterIdx, nat), right: bool)
    ensures !TakenBy([], place, right)
  {
  }

  lemma NothingEntered()
    ensures EnteredOk(EmptyOut([], NO_LEDGER))
  {
  }

  lemma NewSessionOk(store: Store, client: Text, clean: bool, saved: Option<Saved>)
    requires saved.Some? ==> SavedOk(store.logs, store.index, saved.value)
    ensures var s := NewSession(client, clean, saved);
            && SessionOk(store.logs, s)
            && forall f :: f in s.subs ==> f in store.index && CountReqs(s.reqs, f) == 1
  {
    hide OutOk, TokenOf, SavedTokenOk;
    var s := NewSession(client, clean, saved);
    NothingOk(store.logs);
    if !clean && saved.Some? {
      var v := saved.value;
      forall k | 0 <= k < |s.reqs| ensures TokenOf(store.logs, s, s.reqs[k]) {
        assert SavedTokenOk(store.logs, v, v.reqs[k]);
        RestoredTokenOk(store.logs, v, s, v.reqs[k]);
      }
      assert ([ConnAck(true)] + PubRels(v.unackedPubrels))[0] == ConnAck(true);
    }
  }

  /** A connection that is not there has no request anywhere, whatever its slab key was used for before. */
  lemma VacantHasNoWaiter(logs: seq<Data>, sess: map<ConnectionId, Session>, vacant: ConnectionId, j: nat, f: Text)
    requires WaitersOk(logs, sess) && vacant !in sess && j < |logs|
    ensures CountWaits(logs[j].waiters, vacant, f) == 0
  {
    var ws := logs[j].waiters;
    forall k | 0 <= k < |ws| ensures ws[k].0 != vacant {
      assert WaiterOk(logs, sess, j, ws[k]);
    }
    CountWaitsZero(ws, vacant, f);
  }

  lemma AddedSession(store: Store, sess: map<ConnectionId, Session>, vacant: ConnectionId, s: Session)
    requires SessionsOk(store.logs, sess) && WaitersOk(store.logs, sess) && CountsOk(store, sess, [])
    requires IndexOk(store) && vacant !in sess && SessionOk(store.logs, s)
    requires forall f :: f in s.subs ==> f in store.index && CountReqs(s.reqs, f) == 1
    ensures SessionsOk(store.logs, sess[vacant := s])
    ensures WaitersOk(store.logs, sess[vacant := s])
    ensures CountsOk(store, sess[vacant := s], [])
  {
    hide TokenOf, OutOk, WireOk, CountReqs;
    var logs, sess' := store.logs, sess[vacant := s];
    forall j, k | 0 <= j < |logs| && 0 <= k < |logs[j].waiters|
      ensures WaiterOk(logs, sess', j, logs[j].waiters[k])
    {
      assert WaiterOk(logs, sess, j, logs[j].waiters[k]);
    }
    forall i, f | i in sess' && f in sess'[i].subs ensures CountOk(store, sess'[i], [], i, f) {
      if i == vacant {
        VacantHasNoWaiter(logs, sess, vacant, store.index[f], f);
      } else {
        assert CountOk(store, sess[i], [], i, f);
      }
    }
  }

  lemma ReplacedKeepsInv(st: State, client: Text)
    requires Inv(st)
    ensures Inv(Replaced(st, client)) && client !in Replaced(st, client).byClient
  {
    if client in st.byClient {
      DisconnectionKeepsInv(st, st.byClient[client]);
    }
  }

  /** The state once a new connection has been let in. */
  function Admitted(st: State, vacant: ConnectionId, s: Session, wills: map<Text, Publish>): State {
    st.(sess := st.sess[vacant := s.(status := Ready)], ready := st.ready + [vacant],
        grave := st.grave - {s.client}, byClient := st.byClient[s.client := vacant], wills := wills)
  }

  lemma AdmittedKeepsInv(st: State, vacant: ConnectionId, s: Session, wills: map<Text, Publish>)
    requires Inv(st) && vacant !in st.sess && s.client !in st.byClient
    requires SessionOk(st.store.logs, s.(status := Ready)) && AllBegin(st.store, s.origin)
    requires forall f :: f in s.subs ==> f in st.store.index && CountReqs(s.reqs, f) == 1
    ensures Inv(Admitted(st, vacant, s, wills))
  {
    hide SessionOk, WaiterOk, SavedOk, CountOk, QueuedOk, IndexOk, CacheOk, HistOk, ShapesOk, AllBegin;
    var s' := s.(status := Ready);
    OriginsWith(st.store, st.sess, st.grave, vacant, s');
    AddedSession(st.store, st.sess, vacant, s');
    QueueGrows(st.sess, st.ready, st.inbox, vacant, s');
    var sess' := st.sess[vacant := s'];
    assert NotesOk(st.store.logs, sess', []);
    assert AllFull(sess') by {
      forall i | i in sess' ensures FullOk(sess'[i]) {
        assert i != vacant ==> FullOk(st.sess[i]);
      }
    }
    AddedClient(st.sess, st.byClient, vacant, s');
  }

  lemma AddedClient(sess: map<ConnectionId, Session>, byClient: map<Text, ConnectionId>, vacant: ConnectionId,
                    s: Session)
    requires ClientsOk(sess, byClient) && vacant !in sess && s.client !in byClient
    ensures ClientsOk(sess[vacant := s], byClient[s.client := vacant])
  {
  }

  lemma AdmissionKeepsInv(st: State, vacant: ConnectionId, client: Text, clean: bool, wills: map<Text, Publish>)
    requires Inv(st) && vacant !in st.sess && client !in st.byClient
    ensures Inv(Admitted(st, vacant, Let(st, client, clean), wills))
  {
    var saved := if client in st.grave then Some(st.grave[client]) else None;
    var s := NewSession(client, clean, saved);
    NewSessionOk(st.store, client, clean, saved);
    assert AllBegin(st.store, s.origin);
    ReadyIsOk(st.store.logs, s);
    AdmittedKeepsInv(st, vacant, s, wills);
  }

  lemma ReadyIsOk(logs: seq<Data>, s: Session)
    requires SessionOk(logs, s)
    ensures SessionOk(logs, s.(status := Ready))
  {
    var s' := s.(status := Ready);
    forall k | 0 <= k < |s'.reqs| ensures TokenOf(logs, s', s'.reqs[k]) {
      assert TokenOf(logs, s, s.reqs[k]);
    }
  }

  lemma LetInKeepsInv(st: State, vacant: ConnectionId, client: Text, clean: bool, will: Option<Publish>)
    requires Inv(st) && vacant !in st.sess && client !in st.byClient
    ensures Inv(LetIn(st, vacant, client, clean, will))
  {
    hide Inv, SessionOk, Admitted, Let;
    var wills := WillsWith(st, client, will);
    LetPaused(st, client, clean);
    AdmissionKeepsInv(st, vacant, client, clean, wills);
    AdmittedIs(st, vacant, Let(st, client, clean), wills);
  }

  lemma LetPaused(st: State, client: Text, clean: bool)
    ensures Let(st, client, clean).status == Paused(Busy)
  {
  }

  /** A connection is let in with its saved session, if it has one and wants it, and is ready at once. */
  lemma NewConnectionKeepsInv(st: State, vacant: ConnectionId, client: Text, clean: bool, will: Option<Publish>)
    requires Inv(st) && vacant !in Replaced(st, client).sess
    ensures Inv(HandleNewConnection(st, vacant, client, clean, will))
  {
    hide Inv, LetIn, Replaced;
    ReplacedKeepsInv(st, client);
    LetInKeepsInv(Replaced(st, client), vacant, client, clean, will);
  }

  lemma AdmittedIs(st: State, vacant: ConnectionId, s: Session, wills: map<Text, Publish>)
    requires s.status == Paused(Busy)
    ensures Admit(st, vacant, s, wills) == Admitted(st, vacant, s, wills)
  {
    assert st.sess[vacant := s][vacant := s.(status := Ready)] == st.sess[vacant := s.(status := Ready)];
  }
}
