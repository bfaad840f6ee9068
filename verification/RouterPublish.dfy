/** Publishing keeps the invariant: logs grow, and waiters become notifications. */
module RouterPublish {
  import opened Basics
  import opened LogSpec
  import opened RouterTypes
  import opened StoreSpec
  import opened Topics
  import opened RouterSpec
  import opened RouterInv

  ghost predicate Tagged(logs: seq<Data>) {
    forall j, k :: 0 <= j < |logs| && 0 <= k < |logs[j].waiters| ==> logs[j].waiters[k].1.filter == logs[j].filter
  }

  ghost predicate IsWaiter(logs: seq<Data>, w: Waiter) {
    exists j, k :: 0 <= j < |logs| && 0 <= k < |logs[j].waiters| && logs[j].waiters[k] == w
  }

  lemma {:induction false} WokenWereWaiting(logs: seq<Data>, idxs: seq<FilterIdx>, item: Publish, k: nat)
    requires forall i :: 0 <= i < |idxs| ==> idxs[i] < |logs|
    requires k < |AppendMany(logs, idxs, item).1|
    ensures IsWaiter(logs, AppendMany(logs, idxs, item).1[k])
    decreases |idxs|
  {
    if idxs != [] {
      var j := idxs[0];
      var d := logs[j];
      var logs' := logs[j := AppendOne(d, item)];
      var woken := AppendMany(logs', idxs[1..], item).1;
      if k < |d.waiters| {
        assert logs[j].waiters[k] == (d.waiters + woken)[k];
      } else {
        WokenWereWaiting(logs', idxs[1..], item, k - |d.waiters|);
        var i, m :| 0 <= i < |logs'| && 0 <= m < |logs'[i].waiters| && logs'[i].waiters[m] == woken[k - |d.waiters|];
        assert i != j && logs[i].waiters[m] == (d.waiters + woken)[k];
      }
    }
  }

  lemma {:induction false} WokenCount(logs: seq<Data>, idxs: seq<FilterIdx>, item: Publish, id: ConnectionId,
                                      j: FilterIdx)
    requires forall i :: 0 <= i < |idxs| ==> idxs[i] < |logs|
    requires NoDuplicates(idxs) && Tagged(logs) && j < |logs|
    requires forall i :: 0 <= i < |logs| && logs[i].filter == logs[j].filter ==> i == j
    ensures CountWaits(AppendMany(logs, idxs, item).1, id, logs[j].filter) ==
            if j in idxs then CountWaits(logs[j].waiters, id, logs[j].filter) else 0
    decreases |idxs|
  {
    if idxs != [] {
      var i := idxs[0];
      var f := logs[j].filter;
      var logs' := logs[i := AppendOne(logs[i], item)];
      var woken := AppendMany(logs', idxs[1..], item).1;
      CountWaitsJoin(logs[i].waiters, woken, id, f);
      WokenCount(logs', idxs[1..], item, id, j);
      assert j in idxs <==> j == i || j in idxs[1..];
      if i != j {
        CountWaitsZero(logs[i].waiters, id, f);
      } else {
        assert j !in idxs[1..];
      }
    }
  }

  // ---------------------------------------------------------------- one publish

  lemma AcceptGrows(store: Store, p: Publish)
    requires StoreOk(store) && !LookupFails(store, p.topic)
    ensures LogsGrow(store.logs, Accept(store, p).0.logs)
  {
    AcceptLogs(store, p);
    var logs' := Accept(store, p).0.logs;
    forall j | 0 <= j < |store.logs| ensures DataGrows(store.logs[j], logs'[j]) {
      assert DataHist(store.logs[j], store.accepted);
      AppendGrows(store.logs[j], p.(retain := false));
    }
  }

  lemma AcceptWaiters(store: Store, sess: map<ConnectionId, Session>, p: Publish)
    requires !LookupFails(store, p.topic) && StoreOk(store) && WaitersOk(store.logs, sess)
    ensures WaitersOk(Accept(store, p).0.logs, sess)
  {
    AcceptLogs(store, p);
    var logs, logs' := store.logs, Accept(store, p).0.logs;
    forall j, k | 0 <= j < |logs'| && 0 <= k < |logs'[j].waiters|
      ensures WaiterOk(logs', sess, j, logs'[j].waiters[k])
    {
      assert logs'[j] == logs[j];
      assert WaiterOk(logs, sess, j, logs[j].waiters[k]);
    }
  }

  lemma WaitersAreTagged(logs: seq<Data>, sess: map<ConnectionId, Session>)
    requires WaitersOk(logs, sess)
    ensures Tagged(logs)
  {
    forall j, k | 0 <= j < |logs| && 0 <= k < |logs[j].waiters|
      ensures logs[j].waiters[k].1.filter == logs[j].filter
    {
      assert WaiterOk(logs, sess, j, logs[j].waiters[k]);
    }
  }

  lemma UpdateRetainedKeeps(store: Store, p: Publish)
    ensures UpdateRetained(store, p).logs == store.logs
    ensures UpdateRetained(store, p).index == store.index
    ensures UpdateRetained(store, p).cache == store.cache
  {
  }

  lemma AcceptNotes(store: Store, sess: map<ConnectionId, Session>, notes: seq<Waiter>, p: Publish)
    requires !LookupFails(store, p.topic)
    requires StoreOk(store) && WaitersOk(store.logs, sess) && NotesOk(store.logs, sess, notes)
    ensures NotesOk(Accept(store, p).0.logs, sess, notes + Accept(store, p).1)
  {
    AcceptGrows(store, p);
    UpdateRetainedKeeps(store, p);
    var logs, logs', woken := store.logs, Accept(store, p).0.logs, Accept(store, p).1;
    NotesGrow(logs, logs', sess, notes);
    var all := notes + woken;
    forall k | 0 <= k < |all| ensures NoteOk(logs', sess, all[k]) {
      if k < |notes| {
        assert NoteOk(logs', sess, notes[k]);
      } else {
        var idxs := Lookup(UpdateRetained(store, p), p.topic).1;
        WokenWereWaiting(logs, idxs, p.(retain := false), k - |notes|);
        var j, m :| 0 <= j < |logs| && 0 <= m < |logs[j].waiters| && logs[j].waiters[m] == all[k];
        assert WaiterOk(logs, sess, j, logs[j].waiters[m]);
        TokenGrows(logs, logs', sess[all[k].0], all[k].1);
      }
    }
  }

  lemma AcceptCount(store: Store, s: Session, notes: seq<Waiter>, id: ConnectionId, f: Text, p: Publish)
    requires !LookupFails(store, p.topic)
    requires StoreOk(store) && Tagged(store.logs) && CountOk(store, s, notes, id, f)
    ensures CountOk(Accept(store, p).0, s, notes + Accept(store, p).1, id, f)
  {
    AcceptLogs(store, p);
    UpdateRetainedKeeps(store, p);
    var u := UpdateRetained(store, p);
    LookupIsExact(u, p.topic);
    var idxs := Lookup(u, p.topic).1;
    var j := store.index[f];
    WokenCount(store.logs, idxs, p.(retain := false), id, j);
    CountWaitsJoin(notes, Accept(store, p).1, id, f);
  }

  lemma AcceptOrigins(st: State, p: Publish)
    requires Core(st) && !LookupFails(st.store, p.topic)
    ensures OriginsOk(Accept(st.store, p).0, st.sess, st.grave)
  {
    hide Accept, LookupFails, SessionsOk, WaitersOk, NotesOk, CountsOk, ReadyOk, GraveOk, OriginsOk;
    AcceptLogs(st.store, p);
    OriginsStay(st.store, Accept(st.store, p).0, st.sess, st.grave);
  }

  /** An accepted publish is appended to every log it matches; whoever waited there is woken. */
  lemma PublishKeepsCore(st: State, p: Publish)
    requires Core(st) && !LookupFails(st.store, p.topic)
    ensures Core(AppendToCommitlog(st, p)) && AppendToCommitlog(st, p).sess == st.sess
  {
    hide Accept, LookupFails, OutOk, TokenOk, ShapesOk, HistOk, CacheOk, Begins, DataGrows;
    AcceptOrigins(st, p);
    AcceptKeepsStore(st.store, p);
    AcceptLogs(st.store, p);
    AcceptGrows(st.store, p);
    var (store, woken) := Accept(st.store, p);
    SessionsGrow(st.store.logs, store.logs, st.sess);
    AcceptWaiters(st.store, st.sess, p);
    AcceptNotes(st.store, st.sess, st.notes, p);
    WaitersAreTagged(st.store.logs, st.sess);
    forall id, f | id in st.sess && f in st.sess[id].subs
      ensures CountOk(store, st.sess[id], st.notes + woken, id, f)
    {
      AcceptCount(st.store, st.sess[id], st.notes, id, f, p);
    }
    forall c | c in st.grave ensures SavedOk(store.logs, store.index, st.grave[c]) {
      SavedGrows(st.store.logs, store.logs, st.store.index, store.index, st.grave[c]);
    }
  }
}
