/** Scheduling keeps the invariant: queueing connections and handing requests back to them. */
module RouterSchedule {
  import opened Basics
  import opened LogSpec
  import opened RouterTypes
  import opened StoreSpec
  import opened WindowSpec
  import opened RouterSpec
  import opened RouterInv

  /** What has to be shown when one session is replaced: its own state, its requests elsewhere, and
      its counts. */
  lemma SessionReplaced(store: Store, sess: map<ConnectionId, Session>, notes: seq<Waiter>, id: ConnectionId,
                        s': Session)
    requires id in sess && SessionsOk(store.logs, sess) && WaitersOk(store.logs, sess)
             && NotesOk(store.logs, sess, notes)
    requires SessionOk(store.logs, s')
    requires forall r :: TokenOf(store.logs, sess[id], r) ==> TokenOf(store.logs, s', r)
    ensures SessionsOk(store.logs, sess[id := s'])
    ensures WaitersOk(store.logs, sess[id := s'])
    ensures NotesOk(store.logs, sess[id := s'], notes)
  {
    hide TokenOf, OutOk, WireOk;
    var logs, sess' := store.logs, sess[id := s'];
    forall j, k | 0 <= j < |logs| && 0 <= k < |logs[j].waiters|
      ensures WaiterOk(logs, sess', j, logs[j].waiters[k])
    {
      assert WaiterOk(logs, sess, j, logs[j].waiters[k]);
    }
    forall k | 0 <= k < |notes| ensures NoteOk(logs, sess', notes[k]) {
      assert NoteOk(logs, sess, notes[k]);
    }
  }

  lemma CountsReplaced(store: Store, sess: map<ConnectionId, Session>, notes: seq<Waiter>, id: ConnectionId,
                       s': Session)
    requires id in sess && CountsOk(store, sess, notes)
    requires forall f :: f in s'.subs ==> CountOk(store, s', notes, id, f)
    ensures CountsOk(store, sess[id := s'], notes)
  {
    var sess' := sess[id := s'];
    forall i, f | i in sess' && f in sess'[i].subs ensures CountOk(store, sess'[i], notes, i, f) {
      if i != id {
        assert CountOk(store, sess[i], notes, i, f);
      }
    }
  }

  /** A session that differs only in what the requests do not depend on. */
  ghost predicate SameReading(s: Session, s': Session) {
    && s'.client == s.client && s'.clean == s.clean && s'.subs == s.subs && s'.origin == s.origin
    && s'.reqs == s.reqs && s'.out == s.out
  }

  /** Replacing a session by one that reads the same keeps the invariant, if the rest is in order. */
  lemma SameReadingKeepsCore(st: State, id: ConnectionId, s': Session, ready: seq<ConnectionId>)
    requires Core(st) && id in st.sess && SameReading(st.sess[id], s')
    requires StatusOk(s') && WireOk(s')
    requires ReadyOk(st.sess[id := s'], ready, st.inbox)
    ensures Core(With(st, id, s').(ready := ready))
  {
    var s := st.sess[id];
    assert SessionOk(st.store.logs, s);
    forall k | 0 <= k < |s'.reqs| ensures TokenOf(st.store.logs, s', s'.reqs[k]) {
      assert TokenOf(st.store.logs, s, s.reqs[k]);
    }
    SessionReplaced(st.store, st.sess, st.notes, id, s');
    forall f | f in s'.subs ensures CountOk(st.store, s', st.notes, id, f) {
      assert CountOk(st.store, s, st.notes, id, f);
    }
    CountsReplaced(st.store, st.sess, st.notes, id, s');
    OriginsWith(st.store, st.sess, st.grave, id, s');
  }

  lemma QueueGrows(sess: map<ConnectionId, Session>, ready: seq<ConnectionId>, inbox: seq<(ConnectionId, Event)>,
                   id: ConnectionId, s': Session)
    requires ReadyOk(sess, ready, inbox) && s'.status.Ready?
    ensures ReadyOk(sess[id := s'], ready + [id], inbox)
  {
    var sess' := sess[id := s'];
    forall i | i in sess' ensures QueuedOk(sess'[i], i, ready + [id], inbox) {
      if i != id {
        assert QueuedOk(sess[i], i, ready, inbox);
      } else {
        assert (ready + [id])[|ready|] == id;
      }
    }
  }

  lemma RescheduleKeepsCore(st: State, id: ConnectionId, reason: ScheduleReason)
    requires Core(st) && id in st.sess
    ensures Core(Reschedule(st, id, reason))
  {
    var s := st.sess[id];
    if s.status.Paused? && TryReady(s.status, reason).Ready? {
      assert SessionOk(st.store.logs, s);
      QueueGrows(st.sess, st.ready, st.inbox, id, s.(status := Ready));
      SameReadingKeepsCore(st, id, s.(status := Ready), st.ready + [id]);
    }
  }

  lemma RescheduleKeepsFull(st: State, id: ConnectionId, reason: ScheduleReason)
    requires id in st.sess
    ensures Continues(st.sess, Reschedule(st, id, reason).sess)
    ensures Reschedule(st, id, reason).notes == st.notes
  {
    ContinuesWith(st.sess, id, st.sess[id]);
    ContinuesWith(st.sess, id, st.sess[id].(status := Ready));
  }

  // ---------------------------------------------------------------- handing requests back

  /** A woken request joins its tracker, which is then made ready if it was caught up. */
  function HandBack(st: State): State
    requires st.notes != []
  {
    Reschedule(Track(st.(notes := st.notes[1..]), st.notes[0].0, st.notes[0].1), st.notes[0].0, FreshData)
  }

  /** The session after it has been handed a request. */
  function Handed(s: Session, r: DataRequest): Session {
    s.(reqs := s.reqs + [r], status := TryReady(s.status, FreshData))
  }

  lemma HandedOk(logs: seq<Data>, s: Session, r: DataRequest)
    requires SessionOk(logs, s) && TokenOf(logs, s, r)
    ensures SessionOk(logs, Handed(s, r))
  {
    var s' := Handed(s, r);
    forall k | 0 <= k < |s'.reqs| ensures TokenOf(logs, s', s'.reqs[k]) {
      if k < |s.reqs| {
        assert TokenOf(logs, s, s.reqs[k]);
      }
    }
  }

  lemma HandedCount(store: Store, s: Session, notes: seq<Waiter>, id: ConnectionId, f: Text, i: ConnectionId)
    requires notes != [] && CountOk(store, s, notes, i, f)
    ensures i != notes[0].0 ==> CountOk(store, s, notes[1..], i, f)
    ensures i == notes[0].0 ==> CountOk(store, Handed(s, notes[0].1), notes[1..], i, f)
  {
    CountWaitsFirst(notes, i, f);
    var r := notes[0].1;
    CountReqsJoin(s.reqs, [r], f);
    assert [r][..0] == [];
  }

  lemma HandBackCounts(store: Store, sess: map<ConnectionId, Session>, notes: seq<Waiter>)
    requires notes != [] && notes[0].0 in sess && CountsOk(store, sess, notes)
    ensures CountsOk(store, sess[notes[0].0 := Handed(sess[notes[0].0], notes[0].1)], notes[1..])
  {
    var (id, r) := notes[0];
    var sess' := sess[id := Handed(sess[id], r)];
    forall i, f | i in sess' && f in sess'[i].subs ensures CountOk(store, sess'[i], notes[1..], i, f) {
      assert CountOk(store, sess[i], notes, i, f);
      HandedCount(store, sess[i], notes, id, f, i);
    }
  }

  lemma HandBackIs(st: State)
    requires st.notes != [] && st.notes[0].0 in st.sess
    ensures var (id, r) := st.notes[0];
            HandBack(st) == st.(
              notes := st.notes[1..],
              sess := st.sess[id := Handed(st.sess[id], r)],
              ready := if st.sess[id].status == Paused(Caughtup) then st.ready + [id] else st.ready)
  {
    var (id, r) := st.notes[0];
    var s := st.sess[id].(reqs := st.sess[id].reqs + [r]);
    assert st.sess[id := s][id := s.(status := Ready)] == st.sess[id := s.(status := Ready)];
  }

  lemma FewerNotes(logs: seq<Data>, sess: map<ConnectionId, Session>, notes: seq<Waiter>)
    requires notes != [] && NotesOk(logs, sess, notes)
    ensures NotesOk(logs, sess, notes[1..])
  {
    var rest := notes[1..];
    forall k | 0 <= k < |rest| ensures NoteOk(logs, sess, rest[k]) {
      assert NoteOk(logs, sess, notes[k + 1]);
    }
  }

  lemma HandBackKeepsCore(st: State)
    requires Core(st) && st.notes != []
    ensures !Track(st.(notes := st.notes[1..]), st.notes[0].0, st.notes[0].1).panicked
    ensures Core(HandBack(st))
  {
    var (id, r) := st.notes[0];
    assert NoteOk(st.store.logs, st.sess, st.notes[0]);
    HandBackIs(st);
    var s := st.sess[id];
    HandedOk(st.store.logs, s, r);
    FewerNotes(st.store.logs, st.sess, st.notes);
    SessionReplaced(st.store, st.sess, st.notes[1..], id, Handed(s, r));
    HandBackCounts(st.store, st.sess, st.notes);
    HandBackReady(st, id, r);
    OriginsWith(st.store, st.sess, st.grave, id, Handed(s, r));
  }

  lemma HandBackReady(st: State, id: ConnectionId, r: DataRequest)
    requires ReadyOk(st.sess, st.ready, st.inbox) && id in st.sess
    ensures var ready := if st.sess[id].status == Paused(Caughtup) then st.ready + [id] else st.ready;
            ReadyOk(st.sess[id := Handed(st.sess[id], r)], ready, st.inbox)
  {
    var s := st.sess[id];
    assert QueuedOk(s, id, st.ready, st.inbox);
    if s.status == Paused(Caughtup) {
      QueueGrows(st.sess, st.ready, st.inbox, id, Handed(s, r));
    } else {
      var sess' := st.sess[id := Handed(s, r)];
      forall i | i in sess' ensures QueuedOk(sess'[i], i, st.ready, st.inbox) {
        assert QueuedOk(st.sess[i], i, st.ready, st.inbox);
      }
    }
  }

  lemma HandBackKeepsFull(st: State)
    requires st.notes != [] && st.notes[0].0 in st.sess
    ensures Continues(st.sess, HandBack(st).sess) && |HandBack(st).notes| == |st.notes| - 1
  {
    HandBackIs(st);
    var (id, r) := st.notes[0];
    ContinuesWith(st.sess, id, Handed(st.sess[id], r));
  }

  /** All woken requests go back, and no notification is left. */
  lemma {:induction false} DrainKeepsCore(st: State)
    requires Core(st)
    ensures Core(Drain(st)) && Drain(st).notes == [] && Continues(st.sess, Drain(st).sess)
    decreases |st.notes|
  {
    if st.notes != [] {
      HandBackKeepsCore(st);
      assert NoteOk(st.store.logs, st.sess, st.notes[0]);
      HandBackKeepsFull(st);
      DrainKeepsCore(HandBack(st));
      ContinuesOn(st.sess, HandBack(st).sess, Drain(st).sess);
    } else {
      assert Continues(st.sess, st.sess);
    }
  }
}
