/** Unsubscribing keeps the invariant, as long as no woken request is waiting to be handed back. */
module RouterUnsubscribe {
  import opened Basics
  import opened LogSpec
  import opened RouterTypes
  import opened StoreSpec
  import opened WindowSpec
  import opened RouterSpec
  import opened RouterInv
  import opened RouterSchedule

  // ---------------------------------------------------------------- removing one waiter

  ghost function One(w: Waiter, id: ConnectionId, f: Text): nat {
    if w.0 == id && w.1.filter == f then 1 else 0
  }

  lemma {:induction false} CountUpdate(ws: seq<Waiter>, i: nat, w: Waiter, id: ConnectionId, f: Text)
    requires i < |ws|
    ensures CountWaits(ws[i := w], id, f) + One(ws[i], id, f) == CountWaits(ws, id, f) + One(w, id, f)
  {
    var n := |ws| - 1;
    if i < n {
      CountUpdate(ws[..n], i, w, id, f);
      assert ws[i := w][..n] == ws[..n][i := w];
    } else {
      assert ws[i := w][..n] == ws[..n];
    }
  }

  lemma SwapRemoveCount(ws: seq<Waiter>, i: nat, id: ConnectionId, f: Text)
    requires i < |ws|
    ensures CountWaits(SwapRemove(ws, i), id, f) + One(ws[i], id, f) == CountWaits(ws, id, f)
  {
    var last := ws[|ws| - 1];
    CountUpdate(ws, i, last, id, f);
  }

  lemma SwapRemoveElements(ws: seq<Waiter>, i: nat, k: nat) returns (m: nat)
    requires i < |ws| && k < |ws| - 1
    ensures m < |ws| && m != i && SwapRemove(ws, i)[k] == ws[m]
  {
    m := if k == i then |ws| - 1 else k;
  }

  /** The same logs, up to their waiters. */
  ghost predicate SameLogs(logs: seq<Data>, logs': seq<Data>) {
    && |logs| == |logs'|
    && forall j :: 0 <= j < |logs| ==> logs'[j] == logs[j].(waiters := logs'[j].waiters)
  }

  lemma SameLogsGrow(logs: seq<Data>, logs': seq<Data>)
    requires SameLogs(logs, logs')
    ensures LogsGrow(logs, logs')
  {
  }

  lemma SameLogsStore(store: Store, logs: seq<Data>)
    requires StoreOk(store) && SameLogs(store.logs, logs)
    ensures StoreOk(store.(logs := logs))
  {
    var s := store.(logs := logs);
    forall j | 0 <= j < |logs| ensures DataHist(s.logs[j], s.accepted) {
      assert DataHist(store.logs[j], store.accepted);
    }
    forall t | t in s.cache ensures ExactMatches(s.logs, t, s.cache[t]) {
      assert ExactMatches(store.logs, t, store.cache[t]);
    }
  }

  // ---------------------------------------------------------------- requests without a filter

  lemma {:induction false} WithoutCount(rs: seq<DataRequest>, f: Text, g: Text)
    ensures CountReqs(Without(rs, f), g) == if g == f then 0 else CountReqs(rs, g)
  {
    if rs != [] {
      WithoutCount(rs[1..], f, g);
      CountReqsFirst(rs, g);
      if rs[0].filter != f {
        assert Without(rs, f)[1..] == Without(rs[1..], f);
        CountReqsFirst(Without(rs, f), g);
      }
    }
  }

  lemma {:induction false} WithoutElements(rs: seq<DataRequest>, f: Text, k: nat) returns (m: nat)
    requires k < |Without(rs, f)|
    ensures m < |rs| && Without(rs, f)[k] == rs[m] && rs[m].filter != f
  {
    if rs[0].filter == f {
      m := WithoutElements(rs[1..], f, k);
      m := m + 1;
    } else if k == 0 {
      m := 0;
    } else {
      m := WithoutElements(rs[1..], f, k - 1);
      m := m + 1;
    }
  }

  // ---------------------------------------------------------------- one filter

  /** The session after an unsubscription. */
  function Unsubscribed(s: Session, pkid: PacketId, f: Text): Session {
    s.(subs := s.subs - {f}, committed := s.committed + [UnsubAck(pkid)], reqs := Without(s.reqs, f))
  }

  lemma OtherTokensStay(logs: seq<Data>, logs': seq<Data>, s: Session, pkid: PacketId, f: Text, r: DataRequest)
    requires SameLogs(logs, logs') && TokenOf(logs, s, r) && r.filter != f
    ensures TokenOf(logs', Unsubscribed(s, pkid, f), r)
  {
    assert logs'[r.filterIdx].log == logs[r.filterIdx].log;
  }

  lemma UnsubscribedOk(logs: seq<Data>, logs': seq<Data>, s: Session, pkid: PacketId, f: Text)
    requires SameLogs(logs, logs') && SessionOk(logs, s)
    ensures SessionOk(logs', Unsubscribed(s, pkid, f))
  {
    var s' := Unsubscribed(s, pkid, f);
    SameLogsGrow(logs, logs');
    OutGrows(logs, logs', s.out);
    forall k | 0 <= k < |s'.reqs| ensures TokenOf(logs', s', s'.reqs[k]) {
      var m := WithoutElements(s.reqs, f, k);
      assert TokenOf(logs, s, s.reqs[m]);
      OtherTokensStay(logs, logs', s, pkid, f, s.reqs[m]);
    }
    assert s.reqs == [] ==> s'.reqs == [];
  }

  function WithoutFirst(ws: seq<Waiter>, id: ConnectionId): seq<Waiter> {
    if FirstWaiter(ws, id) == |ws| then ws else SwapRemove(ws, FirstWaiter(ws, id))
  }

  /** A connection with at most one waiter in a log has none after the removal. */
  lemma NoWaiterLeft(ws: seq<Waiter>, id: ConnectionId, f: Text)
    requires forall k :: 0 <= k < |ws| && ws[k].0 == id ==> ws[k].1.filter == f
    requires CountWaits(ws, id, f) <= 1
    ensures forall k :: 0 <= k < |WithoutFirst(ws, id)| ==>
              WithoutFirst(ws, id)[k].0 != id && WithoutFirst(ws, id)[k] in ws
  {
    var i := FirstWaiter(ws, id);
    if i < |ws| {
      SwapRemoveCount(ws, i, id, f);
      CountWaitsZero(SwapRemove(ws, i), id, f);
    }
  }

  lemma RemoveWaiterIs(store: Store, id: ConnectionId, f: Text)
    requires f in store.index
    ensures var store' := RemoveWaiterOf(store, id, f);
            var j := store.index[f];
            && SameLogs(store.logs, store'.logs) && store' == store.(logs := store'.logs)
            && (forall m :: 0 <= m < |store.logs| && m != j ==> store'.logs[m] == store.logs[m])
            && store'.logs[j].waiters == WithoutFirst(store.logs[j].waiters, id)
  {
  }

  lemma OtherWaiterStays(logs: seq<Data>, logs': seq<Data>, sess: map<ConnectionId, Session>, id: ConnectionId,
                         pkid: PacketId, f: Text, n: FilterIdx, w: Waiter)
    requires n < |logs| && WaiterOk(logs, sess, n, w) && SameLogs(logs, logs') && id in sess
    requires w.0 == id ==> w.1.filter != f
    ensures WaiterOk(logs', sess[id := Unsubscribed(sess[id], pkid, f)], n, w)
  {
    if w.0 == id {
      OtherTokensStay(logs, logs', sess[id], pkid, f, w.1);
    } else {
      SameLogsGrow(logs, logs');
      TokenGrows(logs, logs', sess[w.0], w.1);
    }
  }

  lemma NoWaiterLeftInLog(store: Store, sess: map<ConnectionId, Session>, notes: seq<Waiter>, id: ConnectionId, f: Text)
    requires WaitersOk(store.logs, sess) && id in sess && CountOk(store, sess[id], notes, id, f)
    requires store.logs[store.index[f]].filter == f
    ensures var ws := store.logs[store.index[f]].waiters;
            forall k :: 0 <= k < |WithoutFirst(ws, id)| ==>
              WithoutFirst(ws, id)[k].0 != id && WithoutFirst(ws, id)[k] in ws
  {
    var j := store.index[f];
    var ws := store.logs[j].waiters;
    forall k | 0 <= k < |ws| && ws[k].0 == id ensures ws[k].1.filter == f {
      assert WaiterOk(store.logs, sess, j, ws[k]);
    }
    NoWaiterLeft(ws, id, f);
  }

  lemma UnsubscribedWaiters(store: Store, sess: map<ConnectionId, Session>, notes: seq<Waiter>, id: ConnectionId,
                            pkid: PacketId, f: Text)
    requires IndexOk(store) && WaitersOk(store.logs, sess) && id in sess && CountOk(store, sess[id], notes, id, f)
    ensures WaitersOk(RemoveWaiterOf(store, id, f).logs, sess[id := Unsubscribed(sess[id], pkid, f)])
  {
    hide ReadsOk, ValidCursor, RemoveWaiterOf;
    var logs, logs' := store.logs, RemoveWaiterOf(store, id, f).logs;
    RemoveWaiterIs(store, id, f);
    NoWaiterLeftInLog(store, sess, notes, id, f);
    forall n, k | 0 <= n < |logs'| && 0 <= k < |logs'[n].waiters|
      ensures WaiterOk(logs', sess[id := Unsubscribed(sess[id], pkid, f)], n, logs'[n].waiters[k])
    {
      var w := logs'[n].waiters[k];
      assert w in logs[n].waiters;
      var m :| 0 <= m < |logs[n].waiters| && logs[n].waiters[m] == w;
      assert WaiterOk(logs, sess, n, logs[n].waiters[m]);
      OtherWaiterStays(logs, logs', sess, id, pkid, f, n, w);
    }
  }

  lemma RemoveWaiterCount(store: Store, id: ConnectionId, f: Text, i: ConnectionId, g: Text)
    requires f in store.index && g in store.index && (i != id || g != f)
             && (store.index[f] == store.index[g] ==> f == g)
    ensures CountWaits(RemoveWaiterOf(store, id, f).logs[store.index[g]].waiters, i, g) ==
            CountWaits(store.logs[store.index[g]].waiters, i, g)
  {
    RemoveWaiterIs(store, id, f);
    var ws := store.logs[store.index[f]].waiters;
    var k := FirstWaiter(ws, id);
    if g == f && k < |ws| {
      SwapRemoveCount(ws, k, i, g);
    }
  }

  lemma UnsubscribedCount(store: Store, s: Session, notes: seq<Waiter>, id: ConnectionId, pkid: PacketId, f: Text,
                          i: ConnectionId, g: Text)
    requires CountOk(store, s, notes, i, g) && f in store.index && (i != id || g != f)
    requires store.index[f] == store.index[g] ==> f == g
    ensures i != id ==> CountOk(RemoveWaiterOf(store, id, f), s, notes, i, g)
    ensures i == id ==> CountOk(RemoveWaiterOf(store, id, f), Unsubscribed(s, pkid, f), notes, i, g)
  {
    RemoveWaiterIs(store, id, f);
    RemoveWaiterCount(store, id, f, i, g);
    WithoutCount(s.reqs, f, g);
  }

  lemma UnsubscribedCounts(store: Store, sess: map<ConnectionId, Session>, notes: seq<Waiter>, id: ConnectionId,
                           pkid: PacketId, f: Text)
    requires IndexOk(store) && CountsOk(store, sess, notes) && id in sess && f in store.index
    ensures CountsOk(RemoveWaiterOf(store, id, f), sess[id := Unsubscribed(sess[id], pkid, f)], notes)
  {
    var store' := RemoveWaiterOf(store, id, f);
    var sess' := sess[id := Unsubscribed(sess[id], pkid, f)];
    forall i, g | i in sess' && g in sess'[i].subs ensures CountOk(store', sess'[i], notes, i, g) {
      assert CountOk(store, sess[i], notes, i, g);
      UnsubscribedCount(store, sess[i], notes, id, pkid, f, i, g);
    }
  }

  lemma UnsubscribedSessions(st: State, id: ConnectionId, pkid: PacketId, f: Text)
    requires Core(st) && id in st.sess && f in st.store.index
    ensures SessionsOk(RemoveWaiterOf(st.store, id, f).logs, st.sess[id := Unsubscribed(st.sess[id], pkid, f)])
  {
    hide TokenOf, OutOk, WireOk, RemoveWaiterOf, StoreOk, WaitersOk, CountsOk, ReadyOk, GraveOk, OriginsOk;
    var logs, logs' := st.store.logs, RemoveWaiterOf(st.store, id, f).logs;
    RemoveWaiterIs(st.store, id, f);
    SameLogsGrow(logs, logs');
    SessionsGrow(logs, logs', st.sess);
    assert SessionOk(logs, st.sess[id]);
    UnsubscribedOk(logs, logs', st.sess[id], pkid, f);
  }

  lemma UnsubscribedGrave(st: State, id: ConnectionId, f: Text)
    requires Core(st) && f in st.store.index
    ensures GraveOk(RemoveWaiterOf(st.store, id, f), st.grave) && StoreOk(RemoveWaiterOf(st.store, id, f))
  {
    var store' := RemoveWaiterOf(st.store, id, f);
    RemoveWaiterIs(st.store, id, f);
    SameLogsStore(st.store, store'.logs);
    SameLogsGrow(st.store.logs, store'.logs);
    forall c | c in st.grave ensures SavedOk(store'.logs, store'.index, st.grave[c]) {
      SavedGrows(st.store.logs, store'.logs, st.store.index, store'.index, st.grave[c]);
    }
  }

  lemma UnsubscribedReady(st: State, id: ConnectionId, pkid: PacketId, f: Text)
    requires Core(st) && id in st.sess
    ensures ReadyOk(st.sess[id := Unsubscribed(st.sess[id], pkid, f)], st.ready, st.inbox)
  {
    hide StoreOk, SessionsOk, WaitersOk, NotesOk, CountsOk, GraveOk, OriginsOk, Without;
    var sess' := st.sess[id := Unsubscribed(st.sess[id], pkid, f)];
    forall i | i in sess' ensures QueuedOk(sess'[i], i, st.ready, st.inbox) {
      assert QueuedOk(st.sess[i], i, st.ready, st.inbox);
    }
  }

  lemma UnsubscribedOrigins(st: State, id: ConnectionId, pkid: PacketId, f: Text)
    requires Core(st) && id in st.sess && f in st.store.index
    ensures OriginsOk(RemoveWaiterOf(st.store, id, f), st.sess[id := Unsubscribed(st.sess[id], pkid, f)], st.grave)
  {
    hide StoreOk, SessionsOk, WaitersOk, NotesOk, CountsOk, ReadyOk, GraveOk, OriginsOk, RemoveWaiterOf, AllBegin;
    var store' := RemoveWaiterOf(st.store, id, f);
    RemoveWaiterIs(st.store, id, f);
    OriginsStay(st.store, store', st.sess, st.grave);
    assert AllBegin(store', st.sess[id].origin) by { OriginsAt(store', st.sess, st.grave, id); }
    OriginsWith(store', st.sess, st.grave, id, Unsubscribed(st.sess[id], pkid, f));
  }

  lemma OriginsAt(store: Store, sess: map<ConnectionId, Session>, grave: map<Text, Saved>, id: ConnectionId)
    requires OriginsOk(store, sess, grave) && id in sess
    ensures AllBegin(store, sess[id].origin)
  {
  }

  /** The map of subscriptions, which says who may unsubscribe, plays no part in the invariant. */
  lemma UnsubscribedKeepsCore(st: State, id: ConnectionId, pkid: PacketId, f: Text,
                              subMap: map<Text, set<ConnectionId>>)
    requires Core(st) && st.notes == [] && id in st.sess && f in st.sess[id].subs
    ensures Core(st.(sess := st.sess[id := Unsubscribed(st.sess[id], pkid, f)], subMap := subMap,
                     store := RemoveWaiterOf(st.store, id, f)))
  {
    hide OutOk, TokenOk, StoreOk, SessionOk, WaiterOk, SavedOk, RemoveWaiterOf, OriginsOk, QueuedOk, CountOk;
    CountedIsFiled(st, id, f);
    UnsubscribedOrigins(st, id, pkid, f);
    UnsubscribedSessions(st, id, pkid, f);
    UnsubscribedWaiters(st.store, st.sess, st.notes, id, pkid, f);
    UnsubscribedCounts(st.store, st.sess, st.notes, id, pkid, f);
    UnsubscribedGrave(st, id, f);
    UnsubscribedReady(st, id, pkid, f);
  }

  lemma CountedIsFiled(st: State, id: ConnectionId, f: Text)
    requires Core(st) && id in st.sess && f in st.sess[id].subs
    ensures IndexOk(st.store) && CountOk(st.store, st.sess[id], st.notes, id, f) && f in st.store.index
  {
    hide SessionsOk, WaitersOk, NotesOk, ReadyOk, GraveOk, OriginsOk, CacheOk, HistOk, ShapesOk;
  }

  lemma ForgottenKeepsCore(st: State, subMap: map<Text, set<ConnectionId>>)
    requires Core(st)
    ensures Core(st.(subMap := subMap))
  {
  }

  lemma UnsubscribeOneKeepsCore(st: State, id: ConnectionId, pkid: PacketId, f: Text)
    requires Core(st) && st.notes == [] && id in st.sess
    ensures Core(UnsubscribeOne(st, id, pkid, f).0)
  {
    if f in st.subMap && id in st.subMap[f] {
      var subMap := st.subMap[f := st.subMap[f] - {id}];
      if f in st.sess[id].subs {
        UnsubscribedKeepsCore(st, id, pkid, f, subMap);
        assert UnsubscribeOne(st, id, pkid, f).0 ==
               st.(sess := st.sess[id := Unsubscribed(st.sess[id], pkid, f)], subMap := subMap,
                   store := RemoveWaiterOf(st.store, id, f));
      } else {
        ForgottenKeepsCore(st, subMap);
      }
    }
  }

  lemma UnsubscribeOneKeepsFull(st: State, id: ConnectionId, pkid: PacketId, f: Text)
    requires id in st.sess
    ensures var st' := UnsubscribeOne(st, id, pkid, f).0;
            st'.notes == st.notes && Continues(st.sess, st'.sess)
  {
    ContinuesWith(st.sess, id, st.sess[id]);
    ContinuesWith(st.sess, id, Unsubscribed(st.sess[id], pkid, f));
  }

  lemma {:induction false} UnsubscribeAllKeepsCore(st: State, id: ConnectionId, pkid: PacketId, fs: seq<Text>,
                                                   acked: bool)
    requires Core(st) && st.notes == [] && id in st.sess
    ensures var st' := UnsubscribeAll(st, id, pkid, fs, acked).0;
            Core(st') && st'.notes == [] && Continues(st.sess, st'.sess)
    decreases |fs|
  {
    if fs != [] {
      UnsubscribeOneKeepsCore(st, id, pkid, fs[0]);
      UnsubscribeOneKeepsFull(st, id, pkid, fs[0]);
      var (st', did) := UnsubscribeOne(st, id, pkid, fs[0]);
      UnsubscribeAllKeepsCore(st', id, pkid, fs[1..], acked || did);
      ContinuesOn(st.sess, st'.sess, UnsubscribeAll(st', id, pkid, fs[1..], acked || did).0.sess);
    } else {
      ContinuesWith(st.sess, id, st.sess[id]);
    }
  }
}
