/** What a subscriber is sent, and in which order. */
module RouterOrder {
  import opened Basics
  import opened LogSpec
  import opened LogReader
  import opened RouterTypes
  import opened StoreSpec
  import opened WindowSpec
  import opened RouterSpec
  import opened RouterInv
  import opened RouterPublish
  import opened RouterOnward
  import opened RouterSubscribe
  import opened RouterRun

  // ---------------------------------------------------------------- requests

  ghost predicate Tracked(st: State, id: ConnectionId, r: DataRequest) {
    id in st.sess && exists k :: 0 <= k < |st.sess[id].reqs| && st.sess[id].reqs[k] == r
  }

  ghost predicate IsParked(st: State, id: ConnectionId, r: DataRequest) {
    exists j, k :: 0 <= j < |st.store.logs| && 0 <= k < |st.store.logs[j].waiters|
           && st.store.logs[j].waiters[k] == (id, r)
  }

  /** The request belongs to the connection, wherever it is. */
  ghost predicate Has(st: State, id: ConnectionId, r: DataRequest) {
    Tracked(st, id, r) || IsParked(st, id, r)
  }

  lemma RequestIsOk(st: State, id: ConnectionId, r: DataRequest)
    requires Inv(st) && Has(st, id, r)
    ensures id in st.sess && TokenOf(st.store.logs, st.sess[id], r)
    ensures DataHist(st.store.logs[r.filterIdx], st.store.accepted)
  {
    hide TokenOk, DataHist, CountsOk, ReadyOk, GraveOk, OutOk, WireOk;
    if Tracked(st, id, r) {
      assert SessionOk(st.store.logs, st.sess[id]);
    } else {
      ParkedIsOk(st, id, r);
    }
    FiledIsOk(st, id, r);
  }

  lemma ParkedIsOk(st: State, id: ConnectionId, r: DataRequest)
    requires Inv(st) && IsParked(st, id, r)
    ensures id in st.sess && TokenOf(st.store.logs, st.sess[id], r) && r.cursor.1 == |st.store.logs[r.filterIdx].hist|
  {
    hide TokenOk, StoreOk, SessionsOk, CountsOk, ReadyOk, GraveOk;
    var j, k :| 0 <= j < |st.store.logs| && 0 <= k < |st.store.logs[j].waiters|
        && st.store.logs[j].waiters[k] == (id, r);
    assert WaiterOk(st.store.logs, st.sess, j, st.store.logs[j].waiters[k]);
  }

  lemma FiledIsOk(st: State, id: ConnectionId, r: DataRequest)
    requires Inv(st) && id in st.sess && TokenOf(st.store.logs, st.sess[id], r)
    ensures DataHist(st.store.logs[r.filterIdx], st.store.accepted)
  {
    hide TokenOk, DataHist, SessionsOk, WaitersOk, CountsOk, ReadyOk, GraveOk, IndexOk, CacheOk;
  }

  // ---------------------------------------------------------------- order

  /** The forwards of one filter that came from its log, in the order they were sent. */
  ghost function LogSourced(sent: seq<Forward>, f: FilterIdx): seq<Forward> {
    if sent == [] then []
    else
      var last := sent[|sent| - 1];
      LogSourced(sent[..|sent| - 1], f) + if last.filterIdx == f && last.cursor.Some? then [last] else []
  }

  lemma {:induction false} LogSourcedPositions(sent: seq<Forward>, f: FilterIdx)
    ensures var got, ps := LogSourced(sent, f), Positions(sent, f);
            && |got| == |ps|
            && forall k :: 0 <= k < |got| ==>
                 got[k].filterIdx == f && got[k].cursor.Some? && got[k].cursor.value.1 == ps[k]
  {
    if sent != [] {
      LogSourcedPositions(sent[..|sent| - 1], f);
    }
  }

  lemma {:induction false} LogSourcedSent(logs: seq<Data>, sent: seq<Forward>, f: FilterIdx, k: nat)
    requires forall i :: 0 <= i < |sent| ==> SentOk(logs, sent[i])
    requires k < |LogSourced(sent, f)|
    ensures SentOk(logs, LogSourced(sent, f)[k])
  {
    var less := sent[..|sent| - 1];
    if k < |LogSourced(less, f)| {
      LogSourcedSent(logs, less, f, k);
    }
  }

  lemma {:induction false} LogSourcedFrom(sent: seq<Forward>, f: FilterIdx, k: nat) returns (i: nat)
    requires k < |LogSourced(sent, f)|
    ensures i < |sent| && sent[i] == LogSourced(sent, f)[k]
  {
    var less := sent[..|sent| - 1];
    if k < |LogSourced(less, f)| {
      i := LogSourcedFrom(less, f, k);
    } else {
      i := |sent| - 1;
    }
  }

  /** The forward carries this publish with this QoS.  Only the packet id may be another. */
  ghost predicate Brings(g: Forward, p: Publish, qos: QoS) {
    g.publish == p.(qos := qos, pkid := g.publish.pkid)
  }

  ghost predicate WasGiven(got: seq<Forward>, p: nat) {
    exists k :: 0 <= k < |got| && got[k].cursor.Some? && got[k].cursor.value.1 == p
  }

  lemma GotIsFaithful(logs: seq<Data>, out: Out, mark: nat, f: FilterIdx, k: nat)
    requires OutOk(logs, out) && mark <= |out.sent| && f < |logs|
    requires k < |LogSourced(out.sent[mark..], f)|
    ensures |Positions(out.sent[mark..], f)| == |LogSourced(out.sent[mark..], f)|
    ensures var g := LogSourced(out.sent[mark..], f)[k];
            && g.cursor.Some? && g.cursor.value.1 == Positions(out.sent[mark..], f)[k] < |logs[f].hist|
            && Brings(g, logs[f].hist[g.cursor.value.1], g.publish.qos)
            && exists i :: mark <= i < |out.sent| && out.sent[i] == g && g.filterIdx == f
  {
    var sent := out.sent[mark..];
    forall i | 0 <= i < |sent| ensures SentOk(logs, sent[i]) {
      assert SentOk(logs, out.sent[mark + i]);
    }
    LogSourcedSent(logs, sent, f, k);
    LogSourcedPositions(sent, f);
    var i := LogSourcedFrom(sent, f, k);
    assert out.sent[mark + i] == sent[i];
  }

  lemma OutAt(st: State, id: ConnectionId)
    requires Inv(st) && id in st.sess
    ensures OutOk(st.store.logs, st.sess[id].out) && WireOk(st.sess[id])
  {
    hide OutOk, WireOk, TokenOf, StoreOk, WaitersOk, CountsOk, ReadyOk, GraveOk;
    assert SessionOk(st.store.logs, st.sess[id]);
  }

  lemma ReadsAt(logs: seq<Data>, s: Session, r: DataRequest)
    requires TokenOf(logs, s, r)
    ensures r.filter in s.origin && s.origin[r.filter].mark <= |s.out.sent|
    ensures var o := s.origin[r.filter];
            && Delivered(o.start, r.cursor.1, MissedOf(s.out.ledger.missed, r.filterIdx),
                         Positions(s.out.sent[o.mark..], r.filterIdx))
            && GivenOk(o.owed, s.out.sent[o.mark..], r)
  {
    hide Delivered, Below, Settled, MissedOf, GivenOk;
  }

  /** And each with the QoS of its request. */
  lemma GotBrings(logs: seq<Data>, out: Out, o: Origin, r: DataRequest, k: nat)
    requires OutOk(logs, out) && o.mark <= |out.sent| && r.filterIdx < |logs|
    requires GivenOk(o.owed, out.sent[o.mark..], r)
    requires k < |LogSourced(out.sent[o.mark..], r.filterIdx)|
    ensures |Positions(out.sent[o.mark..], r.filterIdx)| == |LogSourced(out.sent[o.mark..], r.filterIdx)|
    ensures var g := LogSourced(out.sent[o.mark..], r.filterIdx)[k];
            && g.cursor.Some?
            && g.cursor.value.1 == Positions(out.sent[o.mark..], r.filterIdx)[k] < |logs[r.filterIdx].hist|
            && Brings(g, logs[r.filterIdx].hist[g.cursor.value.1], r.qos)
  {
    hide OutOk, LogSourced, Positions;
    GotIsFaithful(logs, out, o.mark, r.filterIdx, k);
    var g := LogSourced(out.sent[o.mark..], r.filterIdx)[k];
    var i :| o.mark <= i < |out.sent| && out.sent[i] == g && g.filterIdx == r.filterIdx;
    assert out.sent[o.mark..][i - o.mark] == g;
  }

  /** The forwards of a subscription that came from its log, since its connection started. */
  ghost function Got(s: Session, r: DataRequest): seq<Forward>
    requires r.filter in s.origin && s.origin[r.filter].mark <= |s.out.sent|
  {
    LogSourced(s.out.sent[s.origin[r.filter].mark..], r.filterIdx)
  }

  /** These forwards follow a log from `start` up to `end`: in its order, without a repeat, each publish as
      it was appended there but with this QoS, and all of them but those of `missed`. */
  ghost predicate FollowsLog(d: Data, start: nat, end: nat, missed: set<nat>, got: seq<Forward>, qos: QoS) {
    && start <= end <= |d.hist|
    && (forall k :: 0 <= k < |got| ==> got[k].cursor.Some? && start <= got[k].cursor.value.1 < end)
    && (forall k :: 0 <= k < |got| ==> Brings(got[k], d.hist[got[k].cursor.value.1], qos))
    && (forall i, k :: 0 <= i < k < |got| ==> got[i].cursor.value.1 < got[k].cursor.value.1)
    && (forall p: nat :: start <= p < end ==> (WasGiven(got, p) <==> p !in missed))
  }

  /** What a connection has been sent for a subscription follows its log up to the cursor of its request,
      but for what was dropped before it was read. */
  lemma InOrder(st: State, id: ConnectionId, r: DataRequest)
    requires Inv(st) && Has(st, id, r)
    ensures id in st.sess && r.filterIdx < |st.store.logs| && r.filter in st.sess[id].origin
    ensures st.sess[id].origin[r.filter].mark <= |st.sess[id].out.sent|
    ensures var s := st.sess[id];
            var missed := MissedOf(s.out.ledger.missed, r.filterIdx);
            && FollowsLog(st.store.logs[r.filterIdx], s.origin[r.filter].start, r.cursor.1, missed, Got(s, r), r.qos)
            && Gone(st.store.logs[r.filterIdx].log, missed)
  {
    hide Inv, Has, OutOk, WireOk, Holds, ValidCursor, MissedOf, Gone, GivenOk;
    RequestIsOk(st, id, r);
    OutAt(st, id);
    var s, d := st.sess[id], st.store.logs[r.filterIdx];
    ReadsAt(st.store.logs, s, r);
    CursorInLog(d, st.store.accepted, s, r);
    MissedAt(st.store.logs, s.out, r.filterIdx);
    var o, missed := s.origin[r.filter], MissedOf(s.out.ledger.missed, r.filterIdx);
    var got, ps := Got(s, r), Positions(s.out.sent[o.mark..], r.filterIdx);
    LogSourcedPositions(s.out.sent[o.mark..], r.filterIdx);
    forall k | 0 <= k < |got|
      ensures got[k].cursor.Some? && o.start <= got[k].cursor.value.1 < r.cursor.1
      ensures Brings(got[k], d.hist[got[k].cursor.value.1], r.qos)
    {
      GotBrings(st.store.logs, s.out, o, r, k);
      assert ps[k] in ps;
    }
    forall p: nat | o.start <= p < r.cursor.1 ensures WasGiven(got, p) <==> p !in missed {
      GivenIs(got, ps, p);
    }
  }

  lemma GivenIs(got: seq<Forward>, ps: seq<nat>, p: nat)
    requires |got| == |ps| && forall k :: 0 <= k < |got| ==> got[k].cursor.Some? && got[k].cursor.value.1 == ps[k]
    ensures WasGiven(got, p) <==> p in ps
  {
    if p in ps {
      var k :| 0 <= k < |ps| && ps[k] == p;
      assert got[k].cursor.value.1 == p;
    }
  }

  lemma MissedAt(logs: seq<Data>, out: Out, f: FilterIdx)
    requires OutOk(logs, out) && f < |logs|
    ensures Gone(logs[f].log, MissedOf(out.ledger.missed, f))
  {
    hide Window, Ordered, LedgerOk, InflightOk, SentOk;
  }

  lemma CursorInLog(d: Data, accepted: seq<Publish>, s: Session, r: DataRequest)
    requires DataHist(d, accepted) && TokenOk(d, s.subs, s.origin, s.out, r)
    ensures r.cursor.1 <= |d.hist|
  {
    hide ReadsOk;
    ValidCursorResumes(d.log, d.hist, r.cursor);
  }

  /** A read misses a position exactly if it is between the cursor and the head of the log: nothing is ever
      missed by a request whose cursor the head has not passed. */
  lemma MissesIff(s: Session, r: DataRequest, store: Store, cfg: Config, f: FilterIdx, p: nat)
    requires r.filterIdx < |store.logs| && |s.out.inflight| <= MAX_INFLIGHT && (f, p) !in s.out.ledger.missed
    ensures (f, p) in ForwardData(s, r, store, cfg).0.out.ledger.missed <==>
            && f == r.filterIdx && r.cursor.1 <= p < store.logs[f].log.HeadOffset()
            && (r.qos.AtMostOnce? || |s.out.inflight| < MAX_INFLIGHT)
  {
    hide ReadRequest, Wake, PushNotes, ForwardNotes, Numbered, Tickets;
    var gone := MissedBy(r, store.logs[r.filterIdx].log);
    assert (f, p) in gone <==> f == r.filterIdx && p in Behind(store.logs[r.filterIdx].log, r.cursor);
  }

  /** No read of this subscription has found its cursor behind the head of the log, since its connection
      started. */
  ghost predicate NeverBehind(s: Session, r: DataRequest)
    requires r.filter in s.origin
  {
    forall p :: s.origin[r.filter].start <= p < r.cursor.1 ==> (r.filterIdx, p) !in s.out.ledger.missed
  }

  /** Then there is no gap: the forwards are the stretch of the log from where the connection started to
      the cursor, whatever the log has dropped since. */
  lemma NoGap(st: State, id: ConnectionId, r: DataRequest)
    requires Inv(st) && Has(st, id, r) && id in st.sess && r.filter in st.sess[id].origin
    requires NeverBehind(st.sess[id], r)
    ensures r.filterIdx < |st.store.logs| && st.sess[id].origin[r.filter].mark <= |st.sess[id].out.sent|
    ensures var d, o, got := st.store.logs[r.filterIdx], st.sess[id].origin[r.filter], Got(st.sess[id], r);
            && o.start <= r.cursor.1 <= |d.hist| && |got| == r.cursor.1 - o.start
            && forall k :: 0 <= k < |got| ==> Brings(got[k], d.hist[o.start + k], r.qos)
  {
    hide Inv, Has, OutOk, WireOk, Holds, ValidCursor, Delivered, GivenOk;
    RequestIsOk(st, id, r);
    OutAt(st, id);
    var s, d := st.sess[id], st.store.logs[r.filterIdx];
    ReadsAt(st.store.logs, s, r);
    CursorInLog(d, st.store.accepted, s, r);
    var o, got := s.origin[r.filter], Got(s, r);
    var ps := Positions(s.out.sent[o.mark..], r.filterIdx);
    DeliveredFrom(o.start, r.cursor.1, MissedOf(s.out.ledger.missed, r.filterIdx), ps);
    NothingMissed(o.start, r.cursor.1, MissedOf(s.out.ledger.missed, r.filterIdx), ps);
    LogSourcedPositions(s.out.sent[o.mark..], r.filterIdx);
    forall k | 0 <= k < |got| ensures Brings(got[k], d.hist[o.start + k], r.qos) {
      GotBrings(st.store.logs, s.out, o, r, k);
    }
  }

  lemma DeliveredFrom(start: nat, end: nat, missed: set<nat>, offsets: seq<nat>)
    requires Delivered(start, end, missed, offsets)
    ensures start <= end
  {
  }

  // ---------------------------------------------------------------- from the subscription on

  lemma {:induction false} MatchingJoin(a: seq<Publish>, b: seq<Publish>, f: Text)
    ensures Matching(a + b, f) == Matching(a, f) + Matching(b, f)
  {
    if b == [] {
      assert a + b == a;
    } else {
      MatchingJoin(a, b[..|b| - 1], f);
      assert (a + b)[..|a + b| - 1] == a + b[..|b| - 1];
    }
  }

  /** What a log receives between two states is what was accepted in between and matches its filter. */
  lemma ReceivedBetween(a: Store, b: Store, j: nat)
    requires StoreExtends(a, b) && j < |a.logs|
    requires DataHist(a.logs[j], a.accepted) && DataHist(b.logs[j], b.accepted)
    ensures b.logs[j].hist == a.logs[j].hist + Matching(b.accepted[|a.accepted|..], a.logs[j].filter)
  {
    hide Holds;
    var d, e := a.logs[j], b.logs[j];
    assert DataExtends(d, e);
    assert b.accepted[d.born..] == a.accepted[d.born..] + b.accepted[|a.accepted|..];
    MatchingJoin(a.accepted[d.born..], b.accepted[|a.accepted|..], d.filter);
  }

  lemma StepExtends(st: State, step: Step)
    requires Enabled(st, step)
    ensures StoreExtends(st.store, Do(st, step).store)
  {
    hide StoreExtends, HandleEvent, Consume;
    StoreSelf(st.store);
    match step
    case Handle(vacant) => EventLeaves(st, st.inbox[0].0, vacant, st.inbox[0].1);
    case Poll => ConsumeLeaves(st);
    case _ =>
  }

  lemma {:induction false} RunExtends(st: State, steps: seq<Step>, last: State)
    requires Run(st, steps, last)
    ensures StoreExtends(st.store, last.store)
    decreases |steps|
  {
    hide StoreExtends, Do;
    StoreSelf(st.store);
    if steps != [] {
      StepExtends(st, steps[0]);
      RunExtends(Do(st, steps[0]), steps[1..], last);
      StoreOn(st.store, Do(st, steps[0]).store, last.store);
    }
  }

  /** Over every run, a log receives exactly what is accepted and matches its filter, in that order. */
  lemma RunReceives(st: State, steps: seq<Step>, last: State, j: nat)
    requires Good(st) && Run(st, steps, last) && !last.panicked && j < |st.store.logs|
    ensures |st.store.accepted| <= |last.store.accepted| && j < |last.store.logs|
    ensures last.store.logs[j].hist ==
            st.store.logs[j].hist + Matching(last.store.accepted[|st.store.accepted|..], st.store.logs[j].filter)
  {
    hide Inv, InboxOk, Run, DataHist, Matching;
    RunsAreGood(st, steps, last);
    RunExtends(st, steps, last);
    LogAt(st, j);
    LogAt(last, j);
    ReceivedBetween(st.store, last.store, j);
  }

  /** The publishes accepted since a subscription was made that match its filter. */
  ghost function SinceSubscribed(st: State, o: Origin, f: Text): seq<Publish>
    requires o.since <= |st.store.accepted|
  {
    Matching(st.store.accepted[o.since..], f)
  }

  /** What is accepted after a subscription is the rest of its log, from where it first started. */
  lemma SubscriptionBegins(st: State, id: ConnectionId, r: DataRequest)
    requires Inv(st) && Has(st, id, r)
    ensures id in st.sess && r.filter in st.sess[id].origin && r.filterIdx < |st.store.logs|
    ensures var d, o := st.store.logs[r.filterIdx], st.sess[id].origin[r.filter];
            && o.since <= |st.store.accepted| && o.first <= |d.hist|
            && d.hist[o.first..] == SinceSubscribed(st, o, r.filter)
  {
    hide Inv, Has, ReadsOk, ValidCursor, Matching, Holds;
    RequestIsOk(st, id, r);
    var j := r.filterIdx;
    var d, o, all := st.store.logs[j], st.sess[id].origin[r.filter], st.store.accepted;
    BeginsAt(st, id, r.filter);
    IndexedAt(st, j);
    assert all[d.born..] == all[d.born..o.since] + all[o.since..];
    MatchingJoin(all[d.born..o.since], all[o.since..], d.filter);
  }

  lemma BeginsAt(st: State, id: ConnectionId, f: Text)
    requires Inv(st) && id in st.sess && f in st.sess[id].origin
    ensures Begins(st.store, f, st.sess[id].origin[f])
  {
    hide StoreOk, SessionsOk, WaitersOk, CountsOk, ReadyOk, GraveOk, Begins;
    assert AllBegin(st.store, st.sess[id].origin);
  }

  lemma IndexedAt(st: State, j: nat)
    requires Inv(st) && j < |st.store.logs|
    ensures st.store.logs[j].filter in st.store.index && st.store.index[st.store.logs[j].filter] == j
  {
    hide SessionsOk, WaitersOk, CountsOk, ReadyOk, GraveOk, OriginsOk, CacheOk, HistOk, ShapesOk;
  }

  /** The forwards are the publishes accepted since the subscription that match its filter, from where its
      connection started up to its cursor, in the order in which they were accepted.  (A connection that
      resumes what was unacknowledged before the client unsubscribed and subscribed again starts before
      its subscription; of that, `NoGap` speaks.) */
  ghost predicate SentExactly(st: State, s: Session, r: DataRequest)
    requires r.filter in s.origin && s.origin[r.filter].mark <= |s.out.sent|
    requires s.origin[r.filter].since <= |st.store.accepted|
  {
    var o, got := s.origin[r.filter], Got(s, r);
    var all := SinceSubscribed(st, o, r.filter);
    && o.start <= r.cursor.1 <= o.first + |all| && |got| == r.cursor.1 - o.start
    && forall k :: 0 <= k < |got| && o.first <= o.start + k ==> Brings(got[k], all[o.start + k - o.first], r.qos)
  }

  /** End-to-end order: as long as no read has found its cursor behind the head of its log, a connection
      has been sent from the log exactly the publishes accepted since it subscribed that match its
      filter, up to the cursor of its request. */
  lemma EndToEndOrder(st: State, id: ConnectionId, r: DataRequest)
    requires Inv(st) && Has(st, id, r) && id in st.sess && r.filter in st.sess[id].origin
    requires NeverBehind(st.sess[id], r)
    ensures st.sess[id].origin[r.filter].mark <= |st.sess[id].out.sent|
    ensures st.sess[id].origin[r.filter].since <= |st.store.accepted|
    ensures SentExactly(st, st.sess[id], r)
  {
    hide Inv, Has, NeverBehind, Got, SinceSubscribed, Brings;
    NoGap(st, id, r);
    SubscriptionBegins(st, id, r);
    var s, d := st.sess[id], st.store.logs[r.filterIdx];
    var o, got := s.origin[r.filter], Got(s, r);
    var all := SinceSubscribed(st, o, r.filter);
    forall k | 0 <= k < |got| && o.first <= o.start + k ensures Brings(got[k], all[o.start + k - o.first], r.qos) {
      assert d.hist[o.first..][o.start + k - o.first] == d.hist[o.start + k];
    }
  }

  lemma LogAt(st: State, j: nat)
    requires Inv(st) && j < |st.store.logs|
    ensures DataHist(st.store.logs[j], st.store.accepted)
  {
    hide DataHist, SessionsOk, WaitersOk, CountsOk, ReadyOk, GraveOk, IndexOk, CacheOk;
  }

  /** A new subscription starts at the end of its log, whether the log is new too or has been there. */
  lemma SubscriptionStartsAtEnd(st: State, id: ConnectionId, f: SubscribeFilter)
    requires Good(st) && id in st.sess && f.path !in st.sess[id].subs
    ensures var (store, idx, cursor) := NextNativeOffset(st.store, f.path);
            var st' := PrepareFilter(st.(store := store), id, f, idx, cursor);
            && st'.store == store && id in st'.sess && f.path in st'.sess[id].origin
            && idx < |store.logs| && store.logs[idx].filter == f.path
            && st'.sess[id].origin[f.path] ==
               Origin(|store.logs[idx].hist|, |st.store.accepted|, |store.logs[idx].hist|, |st.sess[id].out.sent|, true)
            && Tracked(st', id, NewRequest(f, idx, cursor)) && cursor.1 == |store.logs[idx].hist|
  {
    hide NextNativeOffset, PrepareFilter, SessionsOk, WaitersOk, CountsOk, ReadyOk, GraveOk, StoreOk, InboxOk;
    NewFilterStore(st.store, f.path);
    var (store, idx, cursor) := NextNativeOffset(st.store, f.path);
    PrepareFilterIs(st.(store := store), id, f, idx, cursor);
    var s' := Subscribed(st.sess[id], f, idx, cursor, |store.accepted|);
    assert s'.reqs[|st.sess[id].reqs|] == NewRequest(f, idx, cursor);
  }

  /** What the link has taken, followed by what is still in its buffer, is what was sent. */
  lemma LinkGetsAll(st: State, id: ConnectionId)
    requires Inv(st) && id in st.sess
    ensures var w := st.sess[id].wire;
            w.taken <= |w.all| && Forwards(w.all[..w.taken]) + Forwards(w.buffer) == st.sess[id].out.sent
  {
    hide Inv, OutOk, Forwards;
    OutAt(st, id);
    var w := st.sess[id].wire;
    ForwardsJoin(w.all[..w.taken], w.buffer);
    assert w.all == w.all[..w.taken] + w.buffer;
  }

  /** A link that waits without a wake-up has seen everything in its buffer: it is empty once the link has taken
      it, and before that what the builder left there. */
  ghost predicate WaitsInTheKnow(w: Wire) {
    && w.taken <= w.seen <= |w.all| && w.buffer == w.all[w.taken..]
    && (w.link.Waiting? && w.wakes == 0 ==> w.seen == |w.all| && (w.taken != 1 ==> w.buffer == []))
  }

  lemma NothingWaitsUnannounced(st: State, id: ConnectionId)
    requires Inv(st) && id in st.sess
    ensures WaitsInTheKnow(st.sess[id].wire)
  {
    hide Inv, OutOk, Forwards;
    OutAt(st, id);
  }

  /** The builder of a link takes one wake-up and one notification, so it leaves what else is there without a
      wake-up exactly if it takes the last: the PUBRELs of a resumed session, if they came in one piece with the
      CONNACK and nothing has been pushed since. */
  lemma BuilderLeavesIff(st: State, id: ConnectionId)
    requires Good(st) && Enabled(st, Build(id))
    ensures id in Do(st, Build(id)).sess
    ensures var w, w' := st.sess[id].wire, Do(st, Build(id)).sess[id].wire;
            && w'.link.Waiting? && w.buffer != [] && w'.buffer == w.buffer[1..]
            && (w'.wakes == 0 && w'.buffer != [] <==> w.wakes == 1 && |w.buffer| > 1)
  {
    hide Core, InboxOk, AllFull, ClientsOk;
    SessionAt(st, id);
  }

  // ---------------------------------------------------------------- in every reachable state

  /** There are at most 100 entries, and their packet ids are between 1 and 100, all different, and follow
      one another cyclically, oldest first. */
  ghost predicate WindowInOrder(w: seq<Inflight>) {
    && |w| <= 100
    && (forall i :: 0 <= i < |w| ==> 1 <= w[i].pkid <= 100)
    && (forall i, j :: 0 <= i < j < |w| ==> w[i].pkid != w[j].pkid)
    && (forall i :: 0 < i < |w| ==> w[i].pkid == w[i - 1].pkid % 100 + 1)
  }

  /** So there is no negative number of free slots. */
  lemma WindowInEveryState(st: State, id: ConnectionId)
    requires Good(st) && id in st.sess
    ensures FreeSlots(st.sess[id].out) >= 0 && WindowInOrder(st.sess[id].out.inflight)
  {
    hide Inv, InboxOk, Ordered, InflightOk, SentOk, WireOk, LedgerOk, LedgerIn;
    OutAt(st, id);
    var out := st.sess[id].out;
    forall i, j | 0 <= i < j < |out.inflight|
      ensures out.inflight[i].pkid != out.inflight[j].pkid
      ensures j == i + 1 ==> out.inflight[j].pkid == out.inflight[i].pkid % MAX_INFLIGHT + 1
    {
      WindowPkids(out, i, j);
    }
  }

  /** Every log is within the limits of the configuration: its number of segments, what they say they hold,
      and how far each goes over the size limit. */
  lemma ShapeInEveryState(st: State, j: nat)
    requires Good(st) && j < |st.store.logs|
    ensures ShapedAs(st.store.logs[j].log, st.store.maxSegmentSize, st.store.maxSegments)
  {
    hide SessionsOk, WaitersOk, CountsOk, ReadyOk, GraveOk, OriginsOk, IndexOk, CacheOk, HistOk, InboxOk, ShapedAs;
  }

  /** Whether a topic is cached or not, looking it up finds each filter it matches once, and no other. */
  lemma LookupInEveryState(st: State, topic: Text)
    requires Good(st) && !LookupFails(st.store, topic)
    ensures ExactMatches(st.store.logs, topic, Lookup(st.store, topic).1)
    ensures topic in st.store.cache ==> ExactMatches(st.store.logs, topic, st.store.cache[topic])
  {
    hide SessionsOk, WaitersOk, CountsOk, ReadyOk, GraveOk, IndexOk, HistOk, InboxOk, ExactMatches, Lookup;
    LookupIsExact(st.store, topic);
  }
}
