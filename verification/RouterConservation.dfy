/** Every subscription keeps exactly one request, and a session survives its connection. */
module RouterConservation {
  import opened Basics
  import opened LogSpec
  import opened LogReader
  import opened RouterTypes
  import opened StoreSpec
  import opened WindowSpec
  import opened RouterSpec
  import opened RouterInv
  import opened RouterPublish
  import opened RouterSchedule
  import opened RouterUnsubscribe
  import opened RouterSessions
  import opened RouterRun
  import opened RouterOrder

  // ---------------------------------------------------------------- one request each

  /** The requests of a connection for a filter among all waiters of all logs. */
  ghost function TotalWaits(logs: seq<Data>, id: ConnectionId, f: Text): nat {
    if logs == [] then 0
    else TotalWaits(logs[..|logs| - 1], id, f) + CountWaits(logs[|logs| - 1].waiters, id, f)
  }

  lemma {:induction false} WaitsElsewhere(logs: seq<Data>, id: ConnectionId, f: Text)
    requires Tagged(logs) && forall j :: 0 <= j < |logs| ==> logs[j].filter != f
    ensures TotalWaits(logs, id, f) == 0
  {
    if logs != [] {
      var n := |logs| - 1;
      CountWaitsZero(logs[n].waiters, id, f);
      assert forall j :: 0 <= j < n ==> logs[..n][j] == logs[j];
      WaitsElsewhere(logs[..n], id, f);
    }
  }

  lemma {:induction false} WaitsInOneLog(logs: seq<Data>, id: ConnectionId, j: nat)
    requires Tagged(logs) && j < |logs|
    requires forall i :: 0 <= i < |logs| && logs[i].filter == logs[j].filter ==> i == j
    ensures TotalWaits(logs, id, logs[j].filter) == CountWaits(logs[j].waiters, id, logs[j].filter)
  {
    var n := |logs| - 1;
    assert forall i :: 0 <= i < n ==> logs[..n][i] == logs[i];
    if j == n {
      WaitsElsewhere(logs[..n], id, logs[j].filter);
    } else {
      CountWaitsZero(logs[n].waiters, id, logs[j].filter);
      WaitsInOneLog(logs[..n], id, j);
    }
  }

  lemma CountAt(st: State, id: ConnectionId, f: Text)
    requires Inv(st) && id in st.sess && f in st.sess[id].subs
    ensures CountOk(st.store, st.sess[id], [], id, f) && Tagged(st.store.logs)
  {
    hide StoreOk, SessionsOk, ReadyOk, GraveOk, CountOk, Tagged;
    WaitersAreTagged(st.store.logs, st.sess);
  }

  lemma IndexAt(st: State)
    requires Inv(st)
    ensures IndexOk(st.store) && st.notes == []
  {
    hide SessionsOk, ReadyOk, GraveOk, CountsOk, WaitersOk, IndexOk, CacheOk, HistOk;
  }

  /** The connection has exactly one request for the filter, in its tracker or among the waiters of one log;
      none is on its way between them. */
  ghost predicate OneRequest(st: State, id: ConnectionId, f: Text)
    requires id in st.sess
  {
    CountReqs(st.sess[id].reqs, f) + TotalWaits(st.store.logs, id, f) == 1 && st.notes == []
  }

  /** Between events, every subscription of a live connection has exactly one request. */
  lemma OneRequestEach(st: State, id: ConnectionId, f: Text)
    requires Good(st) && id in st.sess && f in st.sess[id].subs
    ensures OneRequest(st, id, f)
  {
    hide Inv, InboxOk, CountReqs, Tagged;
    CountAt(st, id, f);
    IndexAt(st);
    WaitsInOneLog(st.store.logs, id, st.store.index[f]);
  }

  /** The request is for one of the subscriptions of a live connection, and reads the log of its filter. */
  ghost predicate Belongs(st: State, id: ConnectionId, r: DataRequest) {
    && id in st.sess && r.filter in st.sess[id].subs
    && r.filterIdx < |st.store.logs| && st.store.logs[r.filterIdx].filter == r.filter
  }

  /** And there are no other requests. */
  lemma NoStrayRequest(st: State, id: ConnectionId, r: DataRequest)
    requires Good(st) && Has(st, id, r)
    ensures Belongs(st, id, r)
  {
    hide Inv, Has, InboxOk, ReadsOk, ValidCursor;
    RequestIsOk(st, id, r);
  }

  // ---------------------------------------------------------------- what is saved

  /** The position of a request that a connection would be resumed from. */
  ghost predicate RestartPoint(out: Out, r: DataRequest, c: Cursor) {
    if exists p :: Waits(out.inflight, r.filterIdx, p)
    then Unacked(out.inflight, r.filterIdx, c) && (forall p :: Waits(out.inflight, r.filterIdx, p) ==> c.1 <= p)
    else c == r.cursor
  }

  lemma WaitsIs(inflight: seq<Inflight>, f: FilterIdx, p: nat)
    ensures Waits(inflight, f, p) <==>
            exists i :: 0 <= i < |inflight| && inflight[i].filterIdx == f && inflight[i].cursor.Some?
                   && inflight[i].cursor.value.1 == p
  {
    if Waits(inflight, f, p) {
      var i :| 0 <= i < |inflight| && (f, p) in LogPlace(inflight[i]);
      assert inflight[i].filterIdx == f;
    }
    if i :| 0 <= i < |inflight|
            && inflight[i].filterIdx == f && inflight[i].cursor.Some? && inflight[i].cursor.value.1 == p
    {
      assert (f, p) in LogPlace(inflight[i]);
    }
  }

  /** A request is rewound to the least position of its filter that waits for an acknowledgement, and
      stays where it is if there is none. */
  lemma RewindsToLeast(out: Out, r: DataRequest)
    requires Ordered(out.inflight)
    ensures RestartPoint(out, r, RewindOne(r, out.inflight).cursor)
  {
    hide Ordered, Waits;
    var f, inflight := r.filterIdx, out.inflight;
    RetransmissionIsLeast(inflight, f);
    forall p
      ensures Waits(inflight, f, p) ==> Retransmission(inflight, f).Some? && Retransmission(inflight, f).value.1 <= p
    {
      WaitsIs(inflight, f, p);
    }
    if Retransmission(inflight, f).Some? {
      WaitsIs(inflight, f, Retransmission(inflight, f).value.1);
    }
  }

  lemma {:induction false} CountedSomewhere(rs: seq<DataRequest>, f: Text) returns (k: nat)
    requires CountReqs(rs, f) >= 1
    ensures k < |rs| && rs[k].filter == f
  {
    var n := |rs| - 1;
    if rs[n].filter == f {
      k := n;
    } else {
      k := CountedSomewhere(rs[..n], f);
    }
  }

  lemma {:induction false} CountedTwice(rs: seq<DataRequest>, f: Text, i: nat, k: nat)
    requires i < k < |rs| && rs[i].filter == f && rs[k].filter == f
    ensures CountReqs(rs, f) >= 2
  {
    var n := |rs| - 1;
    if k == n {
      CountReqsZero(rs[..n], f);
      assert rs[..n][i] == rs[i];
    } else {
      CountedTwice(rs[..n], f, i, k);
    }
  }

  /** What the request has been saved as. */
  ghost predicate SavedAs(v: Saved, r: DataRequest, out: Out) {
    exists k :: 0 <= k < |v.reqs| && v.reqs[k] == RewindOne(r, out.inflight)
  }

  lemma TakenIsGathered(logs: seq<Data>, s: Session, id: ConnectionId, r: DataRequest, k: nat)
    requires k < |Gathered(logs, s, id)| && Gathered(logs, s, id)[k] == r
    ensures SavedAs(SaveState(s, CleanLogs(logs, id).1), r, s.out)
  {
    assert SaveState(s, CleanLogs(logs, id).1).reqs[k] == RewindOne(r, s.out.inflight);
  }

  lemma {:induction false} RemovedIsTaken(ws: seq<Waiter>, id: ConnectionId, r: DataRequest)
    requires (id, r) in ws
    ensures r in RemoveWaiters(ws, id).1
    decreases |ws|
  {
    var i := FirstWaiter(ws, id);
    var k :| 0 <= k < |ws| && ws[k] == (id, r);
    if ws[i].1 != r {
      var less := SwapRemove(ws, i);
      assert less[if k == |ws| - 1 then i else k] == (id, r);
      RemovedIsTaken(less, id, r);
      var taken := RemoveWaiters(less, id).1;
      var m :| 0 <= m < |taken| && taken[m] == r;
      assert RemoveWaiters(ws, id).1[m + 1] == r;
    } else {
      assert RemoveWaiters(ws, id).1[0] == r;
    }
  }

  lemma {:induction false} CleanedIsTaken(logs: seq<Data>, id: ConnectionId, r: DataRequest, j: nat)
    requires j < |logs| && (id, r) in logs[j].waiters
    ensures r in CleanLogs(logs, id).1
  {
    var first := RemoveWaiters(logs[0].waiters, id).1;
    var more := CleanLogs(logs[1..], id).1;
    if j == 0 {
      RemovedIsTaken(logs[0].waiters, id, r);
      var m :| 0 <= m < |first| && first[m] == r;
      assert (first + more)[m] == r;
    } else {
      CleanedIsTaken(logs[1..], id, r, j - 1);
      var m :| 0 <= m < |more| && more[m] == r;
      assert (first + more)[|first| + m] == r;
    }
  }

  /** A request of a connection, wherever it is, is among what is saved when the connection is dropped. */
  lemma RequestIsSaved(st: State, id: ConnectionId, r: DataRequest)
    requires Has(st, id, r) && id in st.sess
    ensures SavedAs(SaveState(st.sess[id], CleanLogs(st.store.logs, id).1), r, st.sess[id].out)
  {
    hide SaveState, SavedAs, CleanLogs;
    var s, logs := st.sess[id], st.store.logs;
    if Tracked(st, id, r) {
      var k :| 0 <= k < |s.reqs| && s.reqs[k] == r;
      TakenIsGathered(logs, s, id, r, k);
    } else {
      var j, n :| 0 <= j < |logs| && 0 <= n < |logs[j].waiters| && logs[j].waiters[n] == (id, r);
      CleanedIsTaken(logs, id, r, j);
      var parked := CleanLogs(logs, id).1;
      var m :| 0 <= m < |parked| && parked[m] == r;
      TakenIsGathered(logs, s, id, r, |s.reqs| + m);
    }
  }

  // ---------------------------------------------------------------- a session survives its connection

  /** A position of the subscription that is still in memory and has not been acknowledged. */
  ghost predicate Pending(log: LaidLog, o: Origin, acked: set<(FilterIdx, nat)>, f: FilterIdx, p: nat) {
    o.first <= p && p >= log.HeadOffset() && (f, p) !in acked
  }

  /** Resuming the request of a session at `c` skips, of what is still in memory and has not been
      acknowledged, exactly what was lost to acknowledgements out of order. */
  ghost predicate SkipsExactlyLost(logs: seq<Data>, s: Session, r: DataRequest, c: Cursor) {
    && r.filterIdx < |logs| && r.filter in s.origin
    && forall p: nat :: Pending(logs[r.filterIdx].log, s.origin[r.filter], s.out.ledger.acked, r.filterIdx, p)
                        ==> (p < c.1 <==> (r.filterIdx, p) in s.out.ledger.lost)
  }

  lemma SkippedIsLost(logs: seq<Data>, s: Session, r: DataRequest, p: nat)
    requires OutOk(logs, s.out) && TokenOf(logs, s, r) && !r.qos.AtMostOnce?
    requires Pending(logs[r.filterIdx].log, s.origin[r.filter], s.out.ledger.acked, r.filterIdx, p)
    ensures p < RewindOne(r, s.out.inflight).cursor.1 <==> (r.filterIdx, p) in s.out.ledger.lost
  {
    hide OutOk, RewindOne, Delivered, Below, Ordered;
    RewoundIsSettled(logs, s, r);
    MissedAt(logs, s.out, r.filterIdx);
    var f, l := r.filterIdx, s.out.ledger;
    if p < RewindOne(r, s.out.inflight).cursor.1 {
      assert Accounted(EmptyOut(s.out.unackedPubrels, l), f, p);
      assert (f, p) in l.missed ==> p in MissedOf(l.missed, f);
    }
    assert (f, p) in l.lost ==> (f, p) in l.acked + l.lost;
  }

  lemma SkipsLost(logs: seq<Data>, s: Session, r: DataRequest)
    requires OutOk(logs, s.out) && TokenOf(logs, s, r) && !r.qos.AtMostOnce?
    ensures SkipsExactlyLost(logs, s, r, RewindOne(r, s.out.inflight).cursor)
  {
    hide OutOk, RewindOne, TokenOk, Pending;
    OriginOfToken(logs, s, r);
    forall p: nat | Pending(logs[r.filterIdx].log, s.origin[r.filter], s.out.ledger.acked, r.filterIdx, p)
      ensures p < RewindOne(r, s.out.inflight).cursor.1 <==> (r.filterIdx, p) in s.out.ledger.lost
    {
      SkippedIsLost(logs, s, r, p);
    }
  }

  lemma OriginOfToken(logs: seq<Data>, s: Session, r: DataRequest)
    requires TokenOf(logs, s, r)
    ensures r.filter in s.origin
  {
    hide ReadsOk;
  }

  /** The request of a connection has been saved for its client, at the least position of its filter that
      waits for an acknowledgement, or where it was if there is none. */
  ghost predicate SavedAtRestartPoint(grave: map<Text, Saved>, s: Session, r: DataRequest) {
    && s.client in grave && SavedAs(grave[s.client], r, s.out)
    && RestartPoint(s.out, r, RewindOne(r, s.out.inflight).cursor)
  }

  /** Session restart.  When a connection with a lasting session is dropped, every one of its requests
      is saved at its point of restart, and resuming there skips, of what is in memory and unacknowledged,
      exactly what was lost to an acknowledgement out of order. */
  lemma RestartKeepsAtLeastOnce(st: State, id: ConnectionId, r: DataRequest)
    requires Good(st) && Has(st, id, r) && id in st.sess && !st.sess[id].clean
    ensures SavedAtRestartPoint(HandleDisconnection(st, id).grave, st.sess[id], r)
    ensures !r.qos.AtMostOnce? ==>
            SkipsExactlyLost(st.store.logs, st.sess[id], r, RewindOne(r, st.sess[id].out.inflight).cursor)
  {
    hide Inv, Has, InboxOk, SaveState, SavedAs, CleanLogs, RewindOne, RestartPoint, TokenOf, OutOk, DataHist,
         SkipsExactlyLost;
    RequestIsOk(st, id, r);
    RequestIsSaved(st, id, r);
    OutAt(st, id);
    var s := st.sess[id];
    WindowIsOrdered(st.store.logs, s.out);
    RewindsToLeast(s.out, r);
    if !r.qos.AtMostOnce? {
      SkipsLost(st.store.logs, s, r);
    }
  }

  lemma WindowIsOrdered(logs: seq<Data>, out: Out)
    requires OutOk(logs, out)
    ensures Ordered(out.inflight)
  {
  }

  /** When the client connects again, its session is what was saved, and it is ready at once. */
  lemma ResumesAsSaved(st: State, vacant: ConnectionId, client: Text, will: Option<Publish>)
    requires Inv(st) && ValidClientId(client) && client in st.grave && client !in st.byClient
    requires vacant !in st.sess && |st.sess| < st.cfg.maxConnections
    ensures var st' := HandleNewConnection(st, vacant, client, false, will);
            && vacant in st'.sess && st'.store == st.store
            && var s, v := st'.sess[vacant], st.grave[client];
               && s.reqs == v.reqs && s.subs == v.subs && s.origin == v.origin
               && s.out.inflight == [] && s.out.unackedPubrels == v.unackedPubrels
               && s.status.Ready? && vacant in st'.ready && client !in st'.grave
  {
    hide Core;
    AdmittedIs(st, vacant, Let(st, client, false), WillsWith(st, client, will));
    var ready := st.ready + [vacant];
    assert ready[|st.ready|] == vacant;
  }

  /** The first read of a resumed request starts where it was saved, or at the head of the log if that
      has been dropped since. */
  lemma FirstReadAfterResume(d: Data, c: Cursor, len: nat)
    requires Holds(d.log, d.hist) && ValidCursor(d.log, c)
    ensures var from := Max(c.1, d.log.HeadOffset());
            var items := ReadV(d.log, c, len).1;
            && from <= |d.hist|
            && |items| == Min(len, |d.hist| - from)
            && forall k :: 0 <= k < |items| ==> items[k].0 == d.hist[from + k] && items[k].1.1 == from + k
  {
    ValidCursorResumes(d.log, d.hist, c);
    ReadVRefinesHistory(d.log, d.hist, c, len);
  }

  /** A saved session has one request for the filter, and all its requests are at cursors their logs still
      honour. */
  ghost predicate SavedInOrder(logs: seq<Data>, v: Saved, f: Text) {
    && CountReqs(v.reqs, f) == 1
    && forall k :: 0 <= k < |v.reqs| ==>
         var r := v.reqs[k];
         r.filterIdx < |logs| && ValidCursor(logs[r.filterIdx].log, r.cursor) && r.filter in v.subs
  }

  /** Saved requests keep to the same rule while they wait. */
  lemma SavedKeepOneEach(st: State, client: Text, f: Text)
    requires Good(st) && client in st.grave && f in st.grave[client].subs
    ensures SavedInOrder(st.store.logs, st.grave[client], f)
  {
    hide StoreOk, SessionsOk, WaitersOk, CountsOk, ReadyOk, OriginsOk, CountReqs, ValidCursor, ReadsOk, InboxOk, OutOk;
    var v := st.grave[client];
    assert SavedOk(st.store.logs, st.store.index, v);
    forall k | 0 <= k < |v.reqs|
      ensures var r := v.reqs[k];
              r.filterIdx < |st.store.logs| && ValidCursor(st.store.logs[r.filterIdx].log, r.cursor)
                && r.filter in v.subs
    {
      assert SavedTokenOk(st.store.logs, v, v.reqs[k]);
    }
  }

  // ---------------------------------------------------------------- acknowledgements out of order

  /** A session loses nothing in its whole life if and only if every acknowledgement that took an entry from
      its window was for that entry, or the entry came from no log. */
  lemma LosesNothingIff(st: State, id: ConnectionId)
    requires Good(st) && id in st.sess
    ensures st.sess[id].out.ledger.lost == {} <==> AllInTurn(st.sess[id].out.ledger.taken)
  {
    hide Inv, InboxOk, Window, Ordered, LedgerOk, InflightOk, SentOk, WireOk, AllInTurn;
    OutAt(st, id);
    NothingLostIff(st.sess[id].out);
  }

  /** The same holds of a session while it is saved. */
  lemma SavedLosesNothingIff(st: State, client: Text)
    requires Good(st) && client in st.grave
    ensures st.grave[client].ledger.lost == {} <==> AllInTurn(st.grave[client].ledger.taken)
  {
    hide StoreOk, SessionsOk, WaitersOk, CountsOk, ReadyOk, OriginsOk, InboxOk, Window, Ordered, LedgerOk, InflightOk,
         SentOk, AllInTurn, SavedTokenOk;
    var v := st.grave[client];
    assert SavedOk(st.store.logs, st.store.index, v);
    NothingLostIff(EmptyOut(v.unackedPubrels, v.ledger));
  }

  /** The ledger of a session goes with it when its connection is dropped and when it is resumed. */
  lemma LedgerIsKept(st: State, id: ConnectionId, vacant: ConnectionId, will: Option<Publish>)
    requires Good(st) && id in st.sess && !st.sess[id].clean
    ensures var st' := HandleDisconnection(st, id);
            && st.sess[id].client in st'.grave && st'.grave[st.sess[id].client].ledger == st.sess[id].out.ledger
            && (ValidClientId(st.sess[id].client) && vacant !in st'.sess && |st'.sess| < st'.cfg.maxConnections ==>
                  Let(st', st.sess[id].client, false).out.ledger == st.sess[id].out.ledger)
  {
    hide Inv, InboxOk, CleanLogs, Restarted;
  }

  /** An acknowledgement loses something exactly when it is not for the oldest entry and that entry came from
      a log. */
  lemma AckLosesIff(out: Out, pkid: PacketId)
    requires LedgerOk(out)
    ensures RegisterAck(out, pkid).0.ledger.lost == out.ledger.lost <==>
            out.inflight == [] || InTurn((out.inflight[0], pkid))
  {
    if out.inflight != [] && out.inflight[0].cursor.Some? {
      var place := (out.inflight[0].filterIdx, out.inflight[0].cursor.value.1);
      assert place in LogPlace(out.inflight[0]);
      assert place in out.ledger.lost ==> place in out.ledger.acked + out.ledger.lost;
    }
  }

  /** And every acknowledgement is entered there, with the entry it took: the oldest of the window. */
  lemma AckIsEntered(out: Out, pkid: PacketId)
    ensures var l := RegisterAck(out, pkid).0.ledger;
            if out.inflight == [] then l == out.ledger
            else l.taken == out.ledger.taken + [(out.inflight[0], pkid)]
  {
  }

  /** What has been lost is skipped, unacknowledged as it is: with two entries of one log in the window, an
      acknowledgement for another packet than the oldest puts the point of restart after the oldest. */
  lemma OutOfOrderSkips(out: Out, pkid: PacketId, r: DataRequest)
    requires Ordered(out.inflight) && |out.inflight| >= 2 && pkid != out.inflight[0].pkid
    requires forall i :: 0 <= i < 2 ==> out.inflight[i].filterIdx == r.filterIdx && out.inflight[i].cursor.Some?
    ensures var out' := RegisterAck(out, pkid).0;
            var c := RewindOne(r, out'.inflight).cursor;
            && c == out.inflight[1].cursor.value && out.inflight[0].cursor.value.1 < c.1
            && (r.filterIdx, out.inflight[0].cursor.value.1) in out'.ledger.lost
  {
    var out' := RegisterAck(out, pkid).0;
    assert out'.inflight[0] == out.inflight[1];
  }
}
