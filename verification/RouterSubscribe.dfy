/** Subscribing keeps the invariant: a new subscription gets one request, at the end of its log. */
module RouterSubscribe {
  import opened Basics
  import opened LogSpec
  import opened LogReader
  import opened RouterTypes
  import opened StoreSpec
  import opened WindowSpec
  import opened RouterSpec
  import opened RouterInv
  import opened RouterSchedule

  // ---------------------------------------------------------------- a log for the filter

  lemma NewFilterHistories(store: Store, filter: Text)
    requires StoreOk(store)
    ensures HistOk(NextNativeOffset(store, filter).0) && ShapesOk(NextNativeOffset(store, filter).0)
  {
    hide IndexOk, CacheOk, DataHist, Shape;
    var s := NextNativeOffset(store, filter).0;
    EmptyHolds(store.maxSegmentSize, store.maxSegments);
    NewDataHist(store, filter);
    forall j | 0 <= j < |s.logs|
      ensures DataHist(s.logs[j], s.accepted) && ShapedAs(s.logs[j].log, s.maxSegmentSize, s.maxSegments)
    {
      if j < |store.logs| {
        assert DataHist(store.logs[j], store.accepted) && s.logs[j] == store.logs[j];
      }
    }
  }

  lemma NewFilterIs(store: Store, filter: Text)
    requires IndexOk(store)
    ensures var (s, idx, cursor) := NextNativeOffset(store, filter);
            && s.accepted == store.accepted && s.retained == store.retained && |store.logs| <= |s.logs|
            && (forall f :: f in store.index ==> f in s.index && s.index[f] == store.index[f])
            && (forall j :: 0 <= j < |store.logs| ==> s.logs[j] == store.logs[j])
            && (forall j :: |store.logs| <= j < |s.logs| ==> s.logs[j].waiters == [])
            && idx < |s.logs| && cursor == s.logs[idx].log.NextOffset()
  {
    hide Layout;
  }

  lemma NewFilterStore(store: Store, filter: Text)
    requires StoreOk(store)
    ensures var (s, idx, cursor) := NextNativeOffset(store, filter);
            && StoreOk(s) && LogsGrow(store.logs, s.logs)
            && idx < |s.logs| && s.logs[idx].filter == filter
            && s.index[filter] == idx && (forall f :: f in store.index ==> f in s.index && s.index[f] == store.index[f])
            && ValidCursor(s.logs[idx].log, cursor) && cursor.1 == |s.logs[idx].hist|
            && (forall j :: 0 <= j < |store.logs| ==> s.logs[j] == store.logs[j])
            && (forall j :: |store.logs| <= j < |s.logs| ==> s.logs[j].waiters == [])
            && DataHist(s.logs[idx], s.accepted) && s.accepted == store.accepted && KeepsBeginnings(store, s)
  {
    hide NextNativeOffset, CacheOk, ShapesOk, ValidCursor, DataHist, IndexOk, RetainedOk;
    NextNativeOffsetKeeps(store, filter);
    NewFilterIs(store, filter);
    NewFilterHistories(store, filter);
    var (s, idx, cursor) := NextNativeOffset(store, filter);
    EndOfHistory(s, idx);
  }

  lemma EndOfHistory(store: Store, j: nat)
    requires HistOk(store) && j < |store.logs|
    ensures var d := store.logs[j];
            DataHist(d, store.accepted) && ValidCursor(d.log, d.log.NextOffset()) && d.log.NextOffset().1 == |d.hist|
  {
    assert DataHist(store.logs[j], store.accepted);
    NextOffsetIsValid(store.logs[j].log, store.logs[j].hist);
  }

  lemma NewDataHist(store: Store, filter: Text)
    ensures DataHist(NewData(store, filter), store.accepted)
  {
    assert store.accepted[|store.accepted|..] == [];
  }

  lemma NewFilterKeepsCore(st: State, filter: Text)
    requires Core(st)
    ensures Core(st.(store := NextNativeOffset(st.store, filter).0))
  {
    hide NextNativeOffset, OutOk, TokenOk, OriginsOk, KeepsBeginnings, DataHist, IndexOk, CacheOk, HistOk, ShapesOk;
    NewFilterStore(st.store, filter);
    var store := NextNativeOffset(st.store, filter).0;
    SessionsGrow(st.store.logs, store.logs, st.sess);
    NotesGrow(st.store.logs, store.logs, st.sess, st.notes);
    NewFilterWaiters(st.store.logs, store.logs, st.sess);
    NewFilterCounts(st.store, store, st.sess, st.notes);
    OriginsStay(st.store, store, st.sess, st.grave);
    forall c | c in st.grave ensures SavedOk(store.logs, store.index, st.grave[c]) {
      SavedGrows(st.store.logs, store.logs, st.store.index, store.index, st.grave[c]);
    }
  }

  lemma NewFilterWaiters(logs: seq<Data>, logs': seq<Data>, sess: map<ConnectionId, Session>)
    requires WaitersOk(logs, sess) && |logs| <= |logs'|
    requires forall j :: 0 <= j < |logs| ==> logs'[j] == logs[j]
    requires forall j :: |logs| <= j < |logs'| ==> logs'[j].waiters == []
    ensures WaitersOk(logs', sess)
  {
    forall j, k | 0 <= j < |logs'| && 0 <= k < |logs'[j].waiters|
      ensures WaiterOk(logs', sess, j, logs'[j].waiters[k])
    {
      assert WaiterOk(logs, sess, j, logs[j].waiters[k]);
    }
  }

  lemma NewFilterCounts(store: Store, store': Store, sess: map<ConnectionId, Session>, notes: seq<Waiter>)
    requires CountsOk(store, sess, notes)
    requires |store.logs| <= |store'.logs| && forall j :: 0 <= j < |store.logs| ==> store'.logs[j] == store.logs[j]
    requires forall f :: f in store.index ==> f in store'.index && store'.index[f] == store.index[f]
    ensures CountsOk(store', sess, notes)
  {
    forall id, f | id in sess && f in sess[id].subs ensures CountOk(store', sess[id], notes, id, f) {
      assert CountOk(store, sess[id], notes, id, f);
    }
  }

  // ---------------------------------------------------------------- a request for the connection

  function NewRequest(f: SubscribeFilter, idx: FilterIdx, cursor: Cursor): DataRequest {
    DataRequest(f.path, idx, f.qos, cursor, 0, true)
  }

  /** The session after a new subscription, when `since` publishes have been accepted. */
  function Subscribed(s: Session, f: SubscribeFilter, idx: FilterIdx, cursor: Cursor, since: nat): Session {
    s.(subs := s.subs + {f.path}, origin := s.origin[f.path := Origin(cursor.1, since, cursor.1, |s.out.sent|, true)],
       reqs := s.reqs + [NewRequest(f, idx, cursor)], status := TryReady(s.status, NewFilter))
  }

  lemma PrepareFilterIs(st: State, id: ConnectionId, f: SubscribeFilter, idx: FilterIdx, cursor: Cursor)
    requires id in st.sess && f.path !in st.sess[id].subs
    ensures var s := st.sess[id];
            PrepareFilter(st, id, f, idx, cursor) == st.(
              sess := st.sess[id := Subscribed(s, f, idx, cursor, |st.store.accepted|)],
              subMap := st.subMap[f.path := (if f.path in st.subMap then st.subMap[f.path] else {}) + {id}],
              ready := if s.status == Paused(Caughtup) then st.ready + [id] else st.ready)
  {
    var s := st.sess[id];
    var o := Origin(cursor.1, |st.store.accepted|, cursor.1, |s.out.sent|, true);
    var a := s.(subs := s.subs + {f.path}, origin := s.origin[f.path := o]);
    var b := a.(reqs := s.reqs + [NewRequest(f, idx, cursor)]);
    assert st.sess[id := a][id := b] == st.sess[id := b];
    assert st.sess[id := b][id := b.(status := Ready)] == st.sess[id := b.(status := Ready)];
  }

  lemma SubscribedKeepsToken(logs: seq<Data>, s: Session, f: SubscribeFilter, idx: FilterIdx, cursor: Cursor,
                             since: nat, r: DataRequest)
    requires TokenOf(logs, s, r) && f.path !in s.subs
    ensures TokenOf(logs, Subscribed(s, f, idx, cursor, since), r)
  {
    assert r.filter != f.path;
  }

  lemma NewRequestOk(logs: seq<Data>, s: Session, f: SubscribeFilter, idx: FilterIdx, cursor: Cursor, since: nat)
    requires OutOk(logs, s.out) && idx < |logs| && logs[idx].filter == f.path
    requires ValidCursor(logs[idx].log, cursor) && cursor.1 == |logs[idx].hist|
    ensures TokenOf(logs, Subscribed(s, f, idx, cursor, since), NewRequest(f, idx, cursor))
  {
    assert s.out.sent[|s.out.sent|..] == [];
    assert Below(s.out.inflight, idx, cursor.1) by {
      forall i | 0 <= i < |s.out.inflight| && s.out.inflight[i].filterIdx == idx && s.out.inflight[i].cursor.Some?
        ensures s.out.inflight[i].cursor.value.1 < cursor.1
      {
        assert InflightOk(logs, s.out.inflight[i]);
      }
    }
  }

  lemma SubscribedOk(logs: seq<Data>, s: Session, f: SubscribeFilter, idx: FilterIdx, cursor: Cursor, since: nat)
    requires SessionOk(logs, s) && f.path !in s.subs && idx < |logs| && logs[idx].filter == f.path
    requires ValidCursor(logs[idx].log, cursor) && cursor.1 == |logs[idx].hist|
    ensures SessionOk(logs, Subscribed(s, f, idx, cursor, since))
  {
    hide OutOk, TokenOf;
    var s' := Subscribed(s, f, idx, cursor, since);
    forall k | 0 <= k < |s'.reqs| ensures TokenOf(logs, s', s'.reqs[k]) {
      if k < |s.reqs| {
        assert TokenOf(logs, s, s.reqs[k]);
        SubscribedKeepsToken(logs, s, f, idx, cursor, since, s.reqs[k]);
      } else {
        NewRequestOk(logs, s, f, idx, cursor, since);
      }
    }
  }

  /** A filter that is not subscribed has no request anywhere. */
  lemma NoRequestYet(st: State, id: ConnectionId, f: Text)
    requires Core(st) && id in st.sess && f !in st.sess[id].subs && f in st.store.index
    ensures CountAll(st.store.logs, st.store.index, st.sess[id], st.notes, id, f) == 0
  {
    var s, j := st.sess[id], st.store.index[f];
    var ws := st.store.logs[j].waiters;
    assert SessionOk(st.store.logs, s);
    forall k | 0 <= k < |s.reqs| ensures s.reqs[k].filter != f {
      assert TokenOf(st.store.logs, s, s.reqs[k]);
    }
    CountReqsZero(s.reqs, f);
    forall k | 0 <= k < |ws| ensures !(ws[k].0 == id && ws[k].1.filter == f) {
      assert WaiterOk(st.store.logs, st.sess, j, ws[k]);
    }
    CountWaitsZero(ws, id, f);
    forall k | 0 <= k < |st.notes| ensures !(st.notes[k].0 == id && st.notes[k].1.filter == f) {
      assert NoteOk(st.store.logs, st.sess, st.notes[k]);
    }
    CountWaitsZero(st.notes, id, f);
  }

  lemma SubscribedCount(store: Store, s: Session, notes: seq<Waiter>, id: ConnectionId, g: Text,
                        f: SubscribeFilter, idx: FilterIdx, cursor: Cursor, since: nat)
    requires g in store.index && store.index[g] < |store.logs|
    requires CountAll(store.logs, store.index, s, notes, id, g) == if g == f.path then 0 else 1
    ensures CountOk(store, Subscribed(s, f, idx, cursor, since), notes, id, g)
  {
    var r := NewRequest(f, idx, cursor);
    CountReqsJoin(s.reqs, [r], g);
    assert [r][..0] == [];
  }

  lemma IndexIsFiled(st: State, f: Text)
    requires Core(st) && f in st.store.index
    ensures st.store.index[f] < |st.store.logs| && st.store.logs[st.store.index[f]].filter == f
  {
    hide SessionsOk, WaitersOk, NotesOk, ReadyOk, GraveOk, CountsOk, OriginsOk;
  }

  lemma SubscribedCounts(st: State, id: ConnectionId, f: SubscribeFilter, idx: FilterIdx, cursor: Cursor, since: nat)
    requires Core(st) && id in st.sess && f.path !in st.sess[id].subs
    requires f.path in st.store.index && st.store.index[f.path] == idx
    ensures CountsOk(st.store, st.sess[id := Subscribed(st.sess[id], f, idx, cursor, since)], st.notes)
  {
    hide StoreOk, SessionsOk, WaitersOk, NotesOk, ReadyOk, GraveOk, CountReqs, CountWaits;
    var s := st.sess[id];
    var s' := Subscribed(s, f, idx, cursor, since);
    NoRequestYet(st, id, f.path);
    IndexIsFiled(st, f.path);
    forall g | g in s'.subs ensures CountOk(st.store, s', st.notes, id, g) {
      if g != f.path {
        assert CountOk(st.store, s, st.notes, id, g);
        IndexIsFiled(st, g);
      }
      SubscribedCount(st.store, s, st.notes, id, g, f, idx, cursor, since);
    }
    CountsReplaced(st.store, st.sess, st.notes, id, s');
  }

  /** A new subscription begins with what is accepted after it. */
  lemma SubscribedOrigins(st: State, id: ConnectionId, f: SubscribeFilter, idx: FilterIdx, cursor: Cursor)
    requires Core(st) && id in st.sess && f.path in st.store.index && st.store.index[f.path] == idx
    requires idx < |st.store.logs| && cursor.1 == |st.store.logs[idx].hist|
    ensures OriginsOk(st.store, st.sess[id := Subscribed(st.sess[id], f, idx, cursor, |st.store.accepted|)], st.grave)
  {
    hide SessionsOk, WaitersOk, NotesOk, CountsOk, ReadyOk, GraveOk, CacheOk, ShapesOk;
    var s, d := st.sess[id], st.store.logs[idx];
    var s' := Subscribed(s, f, idx, cursor, |st.store.accepted|);
    assert DataHist(d, st.store.accepted) && d.filter == f.path;
    assert st.store.accepted[d.born..|st.store.accepted|] == st.store.accepted[d.born..];
    assert AllBegin(st.store, s.origin);
    OriginsWith(st.store, st.sess, st.grave, id, s');
  }

  lemma SubscribedReady(st: State, id: ConnectionId, s': Session)
    requires ReadyOk(st.sess, st.ready, st.inbox) && id in st.sess
    requires s'.status == TryReady(st.sess[id].status, NewFilter) && s'.wire == st.sess[id].wire
    ensures ReadyOk(st.sess[id := s'],
                    if st.sess[id].status == Paused(Caughtup) then st.ready + [id] else st.ready, st.inbox)
  {
    assert QueuedOk(st.sess[id], id, st.ready, st.inbox);
    if st.sess[id].status == Paused(Caughtup) {
      QueueGrows(st.sess, st.ready, st.inbox, id, s');
    } else {
      var sess' := st.sess[id := s'];
      forall i | i in sess' ensures QueuedOk(sess'[i], i, st.ready, st.inbox) {
        assert QueuedOk(st.sess[i], i, st.ready, st.inbox);
      }
    }
  }

  lemma SubscribedKeepsTokens(st: State, id: ConnectionId, f: SubscribeFilter, idx: FilterIdx, cursor: Cursor,
                              since: nat)
    requires Core(st) && id in st.sess && f.path !in st.sess[id].subs
    requires idx < |st.store.logs| && st.store.logs[idx].filter == f.path
    requires ValidCursor(st.store.logs[idx].log, cursor) && cursor.1 == |st.store.logs[idx].hist|
    ensures var sess := st.sess[id := Subscribed(st.sess[id], f, idx, cursor, since)];
            SessionsOk(st.store.logs, sess) && WaitersOk(st.store.logs, sess) && NotesOk(st.store.logs, sess, st.notes)
  {
    var s := st.sess[id];
    var s' := Subscribed(s, f, idx, cursor, since);
    assert SessionOk(st.store.logs, s);
    SubscribedOk(st.store.logs, s, f, idx, cursor, since);
    forall r | TokenOf(st.store.logs, s, r) ensures TokenOf(st.store.logs, s', r) {
      SubscribedKeepsToken(st.store.logs, s, f, idx, cursor, since, r);
    }
    SessionReplaced(st.store, st.sess, st.notes, id, s');
  }

  lemma AgainKeepsCore(st: State, subMap: map<Text, set<ConnectionId>>)
    requires Core(st)
    ensures Core(st.(subMap := subMap))
  {
  }

  lemma PrepareFilterKeepsCore(st: State, id: ConnectionId, f: SubscribeFilter, idx: FilterIdx, cursor: Cursor)
    requires Core(st) && id in st.sess
    requires f.path in st.store.index && st.store.index[f.path] == idx
    requires ValidCursor(st.store.logs[idx].log, cursor) && cursor.1 == |st.store.logs[idx].hist|
    ensures Core(PrepareFilter(st, id, f, idx, cursor))
  {
    var s := st.sess[id];
    if f.path in s.subs {
      AgainKeepsCore(st, st.subMap[f.path := (if f.path in st.subMap then st.subMap[f.path] else {}) + {id}]);
    } else {
      NewSubscriptionKeepsCore(st, id, f, idx, cursor);
    }
  }

  lemma NewSubscriptionKeepsCore(st: State, id: ConnectionId, f: SubscribeFilter, idx: FilterIdx, cursor: Cursor)
    requires Core(st) && id in st.sess && f.path !in st.sess[id].subs
    requires f.path in st.store.index && st.store.index[f.path] == idx
    requires ValidCursor(st.store.logs[idx].log, cursor) && cursor.1 == |st.store.logs[idx].hist|
    ensures Core(PrepareFilter(st, id, f, idx, cursor))
  {
    hide OutOk, TokenOf, StoreOk, OriginsOk, CountsOk, ReadyOk, GraveOk, SessionsOk, WaitersOk, NotesOk;
    var since := |st.store.accepted|;
    var s' := Subscribed(st.sess[id], f, idx, cursor, since);
    IndexIsFiled(st, f.path);
    SubscribedKeepsTokens(st, id, f, idx, cursor, since);
    SubscribedCounts(st, id, f, idx, cursor, since);
    SubscribedOrigins(st, id, f, idx, cursor);
    SubscribedReady(st, id, s');
    PrepareFilterIs(st, id, f, idx, cursor);
    var st' := PrepareFilter(st, id, f, idx, cursor);
    assert st'.sess == st.sess[id := s'] && st'.store == st.store && st'.notes == st.notes;
  }

  lemma PrepareFilterKeepsFull(st: State, id: ConnectionId, f: SubscribeFilter, idx: FilterIdx, cursor: Cursor)
    requires id in st.sess
    ensures Continues(st.sess, PrepareFilter(st, id, f, idx, cursor).sess)
    ensures PrepareFilter(st, id, f, idx, cursor).notes == st.notes
  {
    ContinuesWith(st.sess, id, st.sess[id]);
    if f.path !in st.sess[id].subs {
      PrepareFilterIs(st, id, f, idx, cursor);
      ContinuesWith(st.sess, id, Subscribed(st.sess[id], f, idx, cursor, |st.store.accepted|));
    }
  }

  lemma {:induction false} SubscribeAllKeepsCore(st: State, id: ConnectionId, fs: seq<SubscribeFilter>, codes: seq<QoS>)
    requires Core(st) && id in st.sess
    ensures var st' := SubscribeAll(st, id, fs, codes).0;
            Core(st') && Continues(st.sess, st'.sess) && st'.notes == st.notes
    decreases |fs|
  {
    if fs != [] && !SubscriptionRefused(fs[0]) {
      var (store, idx, cursor) := NextNativeOffset(st.store, fs[0].path);
      NewFilterKeepsCore(st, fs[0].path);
      NewFilterStore(st.store, fs[0].path);
      var mid := st.(store := store);
      PrepareFilterKeepsCore(mid, id, fs[0], idx, cursor);
      PrepareFilterKeepsFull(mid, id, fs[0], idx, cursor);
      var next := PrepareFilter(mid, id, fs[0], idx, cursor);
      SubscribeAllKeepsCore(next, id, fs[1..], codes + [fs[0].qos]);
      ContinuesOn(st.sess, next.sess, SubscribeAll(next, id, fs[1..], codes + [fs[0].qos]).0.sess);
    } else {
      ContinuesWith(st.sess, id, st.sess[id]);
    }
  }
}
