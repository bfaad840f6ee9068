/** What holds of the router in every reachable state. */
module RouterInv {
  import opened Basics
  import opened LogSpec
  import opened LogReader
  import opened RouterTypes
  import opened StoreSpec
  import opened Topics
  import opened WindowSpec
  import opened RouterSpec

  // ---------------------------------------------------------------- counting tokens

  ghost function CountReqs(rs: seq<DataRequest>, f: Text): nat {
    if rs == [] then 0 else CountReqs(rs[..|rs| - 1], f) + if rs[|rs| - 1].filter == f then 1 else 0
  }

  ghost function CountWaits(ws: seq<Waiter>, id: ConnectionId, f: Text): nat {
    if ws == [] then 0
    else CountWaits(ws[..|ws| - 1], id, f) + if ws[|ws| - 1].0 == id && ws[|ws| - 1].1.filter == f then 1 else 0
  }

  /** How many requests of a connection there are for a filter, wherever they are. */
  ghost function CountAll(logs: seq<Data>, index: map<Text, FilterIdx>, s: Session, notes: seq<Waiter>,
                          id: ConnectionId, f: Text): nat
    requires f in index && index[f] < |logs|
  {
    CountReqs(s.reqs, f) + CountWaits(logs[index[f]].waiters, id, f) + CountWaits(notes, id, f)
  }

  // ---------------------------------------------------------------- forwards of one filter

  /** The log positions among some forwards that came from the log of one filter. */
  ghost function Positions(sent: seq<Forward>, f: FilterIdx): seq<nat> {
    if sent == [] then []
    else
      var last := sent[|sent| - 1];
      Positions(sent[..|sent| - 1], f) + if last.filterIdx == f && last.cursor.Some? then [last.cursor.value.1] else []
  }

  ghost function Forwards(ns: seq<Notification>): seq<Forward> {
    if ns == [] then []
    else Forwards(ns[..|ns| - 1]) + if ns[|ns| - 1].Forwarded? then [ns[|ns| - 1].f] else []
  }

  // ---------------------------------------------------------------- tokens

  /** The position waits for its acknowledgement. */
  ghost predicate Waits(inflight: seq<Inflight>, f: FilterIdx, p: nat) {
    exists i :: 0 <= i < |inflight| && (f, p) in LogPlace(inflight[i])
  }

  ghost predicate Accounted(out: Out, f: FilterIdx, p: nat) {
    (f, p) in out.ledger.acked + out.ledger.lost + out.ledger.missed || Waits(out.inflight, f, p)
  }

  /** Every position passed so far has been acknowledged, or is waiting for it, or was lost to an
      acknowledgement out of order, or missed because it had been dropped from the log. */
  ghost predicate Settled(first: nat, end: nat, out: Out, f: FilterIdx) {
    forall p: nat :: first <= p < end ==> Accounted(out, f, p)
  }

  /** What has left the window is behind the cursor. */
  ghost predicate Passed(ledger: Ledger, f: FilterIdx, bound: nat) {
    forall place :: place in ledger.acked + ledger.lost && place.0 == f ==> place.1 < bound
  }

  ghost function MissedOf(missed: set<(FilterIdx, nat)>, f: FilterIdx): set<nat> {
    set m | m in missed && m.0 == f :: m.1
  }

  ghost predicate TokenOk(d: Data, subs: set<Text>, origin: map<Text, Origin>, out: Out, r: DataRequest) {
    && r.filter == d.filter && r.filter in subs && r.filter in origin
    && ValidCursor(d.log, r.cursor)
    && ReadsOk(origin[r.filter], out, r)
  }

  /** Since its connection started, a request has been given all positions up to its cursor but those it
      has missed. */
  ghost predicate ReadsOk(o: Origin, out: Out, r: DataRequest) {
    && o.mark <= |out.sent|
    && Delivered(o.start, r.cursor.1, MissedOf(out.ledger.missed, r.filterIdx),
                 Positions(out.sent[o.mark..], r.filterIdx))
    && Below(out.inflight, r.filterIdx, r.cursor.1)
    && Passed(out.ledger, r.filterIdx, r.cursor.1)
    && GivenOk(o.owed, out.sent[o.mark..], r)
    && (!r.qos.AtMostOnce? ==> Settled(o.first, r.cursor.1, out, r.filterIdx))
  }

  /** The forward is a retained message, given for one filter. */
  predicate IsRetained(g: Forward, f: FilterIdx) { g.filterIdx == f && g.cursor.None? }

  ghost predicate NoneRetained(fs: seq<Forward>, f: FilterIdx) {
    forall k :: 0 <= k < |fs| ==> !IsRetained(fs[k], f)
  }

  /** No topic comes twice among the retained messages given for a filter. */
  ghost predicate RetainedOnce(fs: seq<Forward>, f: FilterIdx) {
    forall i, k :: 0 <= i < k < |fs| && IsRetained(fs[i], f) && IsRetained(fs[k], f)
           ==> fs[i].publish.topic != fs[k].publish.topic
  }

  /** Since its connection started, a request has been given everything with its own QoS, and the retained
      messages once, if they were owed. */
  ghost predicate GivenOk(owed: bool, since: seq<Forward>, r: DataRequest) {
    && (forall k :: 0 <= k < |since| && since[k].filterIdx == r.filterIdx ==> since[k].publish.qos == r.qos)
    && (r.forwardRetained ==> owed)
    && (r.forwardRetained || !owed ==> NoneRetained(since, r.filterIdx))
    && RetainedOnce(since, r.filterIdx)
  }

  ghost predicate TokenOf(logs: seq<Data>, s: Session, r: DataRequest) {
    r.filterIdx < |logs| && TokenOk(logs[r.filterIdx], s.subs, s.origin, s.out, r)
  }

  // ---------------------------------------------------------------- sessions

  ghost predicate InflightOk(logs: seq<Data>, e: Inflight) {
    && e.filterIdx < |logs|
    && (e.cursor.Some? ==>
          ValidCursor(logs[e.filterIdx].log, e.cursor.value) && e.cursor.value.1 < |logs[e.filterIdx].hist|)
  }

  /** The broker changes only what belongs to one delivery. */
  predicate Delivers(p: Publish, item: Publish) {
    p == item.(qos := p.qos, pkid := p.pkid)
  }

  /** A retained message that a filter may be given. */
  predicate MayBeGiven(p: Publish, filter: Text) {
    p.retain && p.payload != [] && Matches(p.topic, filter)
  }

  /** A forward from a log carries what was appended there; any other is a retained message that matches the
      filter. */
  ghost predicate SentOk(logs: seq<Data>, f: Forward) {
    && f.filterIdx < |logs|
    && match f.cursor
       case Some(c) => c.1 < |logs[f.filterIdx].hist| && Delivers(f.publish, logs[f.filterIdx].hist[c.1])
       case None => MayBeGiven(f.publish, logs[f.filterIdx].filter)
  }

  /** What is in the ledger was in the logs once; what was missed is no longer. */
  ghost predicate LedgerIn(logs: seq<Data>, l: Ledger) {
    && (forall place :: place in l.acked + l.lost ==> place.0 < |logs| && place.1 < |logs[place.0].hist|)
    && (forall place :: place in l.missed ==> place.0 < |logs| && place.1 < logs[place.0].log.HeadOffset())
  }

  ghost predicate OutOk(logs: seq<Data>, out: Out) {
    && Window(out)
    && EnteredOk(out)
    && Ordered(out.inflight)
    && LedgerOk(out)
    && LedgerIn(logs, out.ledger)
    && (forall i :: 0 <= i < |out.inflight| ==> InflightOk(logs, out.inflight[i]))
    && (forall k :: 0 <= k < |out.sent| ==> SentOk(logs, out.sent[k]))
  }

  ghost predicate StatusOk(s: Session) {
    s.status == Paused(Caughtup) ==> s.reqs == []
  }

  /** A connection is only paused for a full window while the window is full. */
  ghost predicate FullOk(s: Session) {
    s.status == Paused(InflightFull) ==> |s.out.inflight| == MAX_INFLIGHT
  }

  /** What the link takes is what was pushed, in order, and an Unschedule in the buffer has a wake-up of
      its own: the builder of the link takes one for the connection acknowledgement. */
  /** A link that waits without a wake-up has seen all that was ever put in its buffer; and it has taken all
      that it has seen, but for what its builder left. */
  ghost predicate SeenOk(w: Wire) {
    && w.taken <= w.seen <= |w.all|
    && (if w.link.Building? then w.seen == 0 else w.taken == w.seen || w.taken == 1)
    && (w.wakes == 0 && (w.link.Waiting? || w.link.Writing?) ==> w.seen == |w.all|)
  }

  ghost predicate WireOk(s: Session) {
    var w := s.wire;
    && w.taken <= |w.all| && w.buffer == w.all[w.taken..]
    && SeenOk(w)
    && Forwards(w.all) == s.out.sent
    && (Unschedule in w.buffer && !w.link.Woken? ==> w.wakes >= if w.link.Building? then 2 else 1)
    && (w.link.Building? ==>
          if w.wakes == 0 then w.buffer == [] && s.committed != [] && s.committed[0].ConnAck?
          else w.buffer != [] && w.buffer[0].DeviceAck? && w.buffer[0].ack.ConnAck?)
  }

  ghost predicate SessionOk(logs: seq<Data>, s: Session) {
    && OutOk(logs, s.out)
    && StatusOk(s)
    && WireOk(s)
    && forall k :: 0 <= k < |s.reqs| ==> TokenOf(logs, s, s.reqs[k])
  }

  /** A saved request is what it will be when its session is resumed; it will be owed the retained messages
      if it still is. */
  ghost predicate SavedTokenOk(logs: seq<Data>, v: Saved, r: DataRequest) {
    && r.filterIdx < |logs|
    && TokenOk(logs[r.filterIdx], v.subs, v.origin, EmptyOut(v.unackedPubrels, v.ledger), r)
    && v.origin[r.filter].owed == r.forwardRetained
  }

  ghost predicate SavedOk(logs: seq<Data>, index: map<Text, FilterIdx>, v: Saved) {
    && OutOk(logs, EmptyOut(v.unackedPubrels, v.ledger))
    && (forall k :: 0 <= k < |v.reqs| ==> SavedTokenOk(logs, v, v.reqs[k]))
    && (forall f :: f in v.subs ==> f in index && CountReqs(v.reqs, f) == 1)
  }

  // ---------------------------------------------------------------- the state

  ghost predicate SessionsOk(logs: seq<Data>, sess: map<ConnectionId, Session>) {
    forall id :: id in sess ==> SessionOk(logs, sess[id])
  }

  /** A waiter is a request of a live connection that has read its log to the end. */
  ghost predicate WaiterOk(logs: seq<Data>, sess: map<ConnectionId, Session>, j: FilterIdx, w: Waiter)
    requires j < |logs|
  {
    && w.0 in sess && w.1.filterIdx == j && TokenOf(logs, sess[w.0], w.1)
    && w.1.cursor.1 == |logs[j].hist|
  }

  ghost predicate WaitersOk(logs: seq<Data>, sess: map<ConnectionId, Session>) {
    forall j, k :: 0 <= j < |logs| && 0 <= k < |logs[j].waiters| ==> WaiterOk(logs, sess, j, logs[j].waiters[k])
  }

  ghost predicate NoteOk(logs: seq<Data>, sess: map<ConnectionId, Session>, w: Waiter) {
    w.0 in sess && TokenOf(logs, sess[w.0], w.1)
  }

  ghost predicate NotesOk(logs: seq<Data>, sess: map<ConnectionId, Session>, notes: seq<Waiter>) {
    forall k :: 0 <= k < |notes| ==> NoteOk(logs, sess, notes[k])
  }

  /** Every subscription of a live connection has exactly one request. */
  ghost predicate CountsOk(store: Store, sess: map<ConnectionId, Session>, notes: seq<Waiter>) {
    forall id, f :: id in sess && f in sess[id].subs ==> CountOk(store, sess[id], notes, id, f)
  }

  ghost predicate CountOk(store: Store, s: Session, notes: seq<Waiter>, id: ConnectionId, f: Text) {
    f in store.index && CountAll(store.logs, store.index, s, notes, id, f) == 1
  }

  /** The wake-up that a connection paused as busy is waiting for. */
  ghost predicate WakeUpComing(s: Session, id: ConnectionId, inbox: seq<(ConnectionId, Event)>) {
    Unschedule in s.wire.buffer || s.wire.link == Writing(true) || (id, LinkReady) in inbox
  }

  ghost predicate ReadyOk(sess: map<ConnectionId, Session>, ready: seq<ConnectionId>,
                          inbox: seq<(ConnectionId, Event)>) {
    forall id :: id in sess ==> QueuedOk(sess[id], id, ready, inbox)
  }

  ghost predicate QueuedOk(s: Session, id: ConnectionId, ready: seq<ConnectionId>, inbox: seq<(ConnectionId, Event)>) {
    && (s.status.Ready? ==> id in ready)
    && (s.status == Paused(Busy) ==> WakeUpComing(s, id, inbox))
  }

  /** A subscription started reading its log where what was accepted after it begins. */
  ghost predicate Begins(store: Store, f: Text, o: Origin) {
    && f in store.index && store.index[f] < |store.logs|
    && var d := store.logs[store.index[f]];
       && d.born <= o.since <= |store.accepted|
       && o.first == |Matching(store.accepted[d.born..o.since], f)|
  }

  ghost predicate AllBegin(store: Store, origin: map<Text, Origin>) {
    forall f :: f in origin ==> Begins(store, f, origin[f])
  }

  ghost predicate OriginsOk(store: Store, sess: map<ConnectionId, Session>, grave: map<Text, Saved>) {
    && (forall id :: id in sess ==> AllBegin(store, sess[id].origin))
    && (forall c :: c in grave ==> AllBegin(store, grave[c].origin))
  }

  ghost predicate GraveOk(store: Store, grave: map<Text, Saved>) {
    forall c :: c in grave ==> SavedOk(store.logs, store.index, grave[c])
  }

  /** Clients and live connections correspond one to one. */
  ghost predicate ClientsOk(sess: map<ConnectionId, Session>, byClient: map<Text, ConnectionId>) {
    && (forall id :: id in sess ==> sess[id].client in byClient && byClient[sess[id].client] == id)
    && (forall c :: c in byClient ==> byClient[c] in sess && sess[byClient[c]].client == c)
  }

  /** The invariant but for full windows, which an acknowledgement out of order breaks until the
      connection is dropped at the end of the batch. */
  ghost predicate Core(st: State) {
    && !st.panicked
    && StoreOk(st.store)
    && SessionsOk(st.store.logs, st.sess)
    && WaitersOk(st.store.logs, st.sess)
    && NotesOk(st.store.logs, st.sess, st.notes)
    && CountsOk(st.store, st.sess, st.notes)
    && ReadyOk(st.sess, st.ready, st.inbox)
    && GraveOk(st.store, st.grave)
    && OriginsOk(st.store, st.sess, st.grave)
    && st.cfg.maxOutgoing >= 1
  }

  ghost predicate AllFull(sess: map<ConnectionId, Session>) {
    forall id :: id in sess ==> FullOk(sess[id])
  }

  /** What holds between events: no woken request is left over. */
  ghost predicate Inv(st: State) {
    Core(st) && AllFull(st.sess) && ClientsOk(st.sess, st.byClient) && st.notes == []
  }

  /** The same connections, whose windows, where in order, still are. */
  ghost predicate Continues(sess: map<ConnectionId, Session>, sess': map<ConnectionId, Session>) {
    && sess'.Keys == sess.Keys
    && forall id :: id in sess ==> ContinuesOne(sess[id], sess'[id])
  }

  ghost predicate ContinuesOne(s: Session, s': Session) {
    s'.client == s.client && s'.clean == s.clean && (FullOk(s) ==> FullOk(s'))
  }

  lemma ContinuesWith(sess: map<ConnectionId, Session>, id: ConnectionId, s': Session)
    requires id in sess && ContinuesOne(sess[id], s')
    ensures Continues(sess, sess[id := s']) && Continues(sess, sess)
  {
  }

  lemma ContinuesOn(a: map<ConnectionId, Session>, b: map<ConnectionId, Session>, c: map<ConnectionId, Session>)
    requires Continues(a, b) && Continues(b, c)
    ensures Continues(a, c)
  {
    forall id | id in a ensures ContinuesOne(a[id], c[id]) {
      assert ContinuesOne(a[id], b[id]) && ContinuesOne(b[id], c[id]);
    }
  }

  lemma ContinuesClients(sess: map<ConnectionId, Session>, sess': map<ConnectionId, Session>,
                         byClient: map<Text, ConnectionId>)
    requires Continues(sess, sess') && ClientsOk(sess, byClient)
    ensures ClientsOk(sess', byClient)
  {
    forall id | id in sess' ensures sess'[id].client in byClient && byClient[sess'[id].client] == id {
      assert ContinuesOne(sess[id], sess'[id]);
    }
    forall c | c in byClient ensures byClient[c] in sess' && sess'[byClient[c]].client == c {
      assert ContinuesOne(sess[byClient[c]], sess'[byClient[c]]);
    }
  }

  // ---------------------------------------------------------------- counting lemmas

  lemma {:induction false} CountReqsJoin(a: seq<DataRequest>, b: seq<DataRequest>, f: Text)
    ensures CountReqs(a + b, f) == CountReqs(a, f) + CountReqs(b, f)
  {
    if b == [] {
      assert a + b == a;
    } else {
      CountReqsJoin(a, b[..|b| - 1], f);
      assert (a + b)[..|a + b| - 1] == a + b[..|b| - 1];
    }
  }

  lemma {:induction false} CountWaitsJoin(a: seq<Waiter>, b: seq<Waiter>, id: ConnectionId, f: Text)
    ensures CountWaits(a + b, id, f) == CountWaits(a, id, f) + CountWaits(b, id, f)
  {
    if b == [] {
      assert a + b == a;
    } else {
      CountWaitsJoin(a, b[..|b| - 1], id, f);
      assert (a + b)[..|a + b| - 1] == a + b[..|b| - 1];
    }
  }

  lemma {:induction false} CountReqsZero(rs: seq<DataRequest>, f: Text)
    ensures CountReqs(rs, f) == 0 <==> forall k :: 0 <= k < |rs| ==> rs[k].filter != f
  {
    if rs != [] {
      CountReqsZero(rs[..|rs| - 1], f);
    }
  }

  lemma {:induction false} CountWaitsZero(ws: seq<Waiter>, id: ConnectionId, f: Text)
    ensures CountWaits(ws, id, f) == 0 <==> forall k :: 0 <= k < |ws| ==> !(ws[k].0 == id && ws[k].1.filter == f)
  {
    if ws != [] {
      CountWaitsZero(ws[..|ws| - 1], id, f);
    }
  }

  lemma CountReqsFirst(rs: seq<DataRequest>, f: Text)
    requires rs != []
    ensures CountReqs(rs, f) == CountReqs(rs[1..], f) + if rs[0].filter == f then 1 else 0
  {
    CountReqsJoin(rs[..1], rs[1..], f);
    assert rs[..1] + rs[1..] == rs;
    assert rs[..1][..0] == [];
  }

  lemma CountWaitsFirst(ws: seq<Waiter>, id: ConnectionId, f: Text)
    requires ws != []
    ensures CountWaits(ws, id, f) == CountWaits(ws[1..], id, f) + if ws[0].0 == id && ws[0].1.filter == f then 1 else 0
  {
    CountWaitsJoin(ws[..1], ws[1..], id, f);
    assert ws[..1] + ws[1..] == ws;
    assert ws[..1][..0] == [];
  }

  // ---------------------------------------------------------------- projections

  lemma {:induction false} PositionsJoin(a: seq<Forward>, b: seq<Forward>, f: FilterIdx)
    ensures Positions(a + b, f) == Positions(a, f) + Positions(b, f)
  {
    if b == [] {
      assert a + b == a;
    } else {
      PositionsJoin(a, b[..|b| - 1], f);
      assert (a + b)[..|a + b| - 1] == a + b[..|b| - 1];
    }
  }

  lemma {:induction false} ForwardsJoin(a: seq<Notification>, b: seq<Notification>)
    ensures Forwards(a + b) == Forwards(a) + Forwards(b)
  {
    if b == [] {
      assert a + b == a;
    } else {
      ForwardsJoin(a, b[..|b| - 1]);
      assert (a + b)[..|a + b| - 1] == a + b[..|b| - 1];
    }
  }

  // ---------------------------------------------------------------- logs grow

  /** A log only grows: its history is extended, its head moves forward, and its cursors stay good. */
  ghost predicate DataGrows(d: Data, e: Data) {
    && d.filter == e.filter
    && d.hist <= e.hist
    && d.log.HeadOffset() <= e.log.HeadOffset()
    && forall c :: ValidCursor(d.log, c) ==> ValidCursor(e.log, c)
  }

  ghost predicate LogsGrow(logs: seq<Data>, logs': seq<Data>) {
    && |logs| <= |logs'|
    && forall j :: 0 <= j < |logs| ==> DataGrows(logs[j], logs'[j])
  }

  lemma AppendGrows(d: Data, item: Publish)
    requires Holds(d.log, d.hist)
    ensures DataGrows(d, AppendOne(d, item))
  {
    AppendHolds(d.log, d.hist, item);
    forall c | ValidCursor(d.log, c) ensures ValidCursor(Append(d.log, item), c) {
      AppendKeepsCursors(d.log, d.hist, item, c);
    }
  }

  lemma TokenGrows(logs: seq<Data>, logs': seq<Data>, s: Session, r: DataRequest)
    requires LogsGrow(logs, logs') && TokenOf(logs, s, r)
    ensures TokenOf(logs', s, r)
  {
    assert DataGrows(logs[r.filterIdx], logs'[r.filterIdx]);
  }

  lemma LedgerGrows(logs: seq<Data>, logs': seq<Data>, l: Ledger)
    requires LogsGrow(logs, logs') && LedgerIn(logs, l)
    ensures LedgerIn(logs', l)
  {
    forall place | place in l.acked + l.lost ensures place.0 < |logs'| && place.1 < |logs'[place.0].hist| {
      assert DataGrows(logs[place.0], logs'[place.0]);
    }
    forall place | place in l.missed ensures place.0 < |logs'| && place.1 < logs'[place.0].log.HeadOffset() {
      assert DataGrows(logs[place.0], logs'[place.0]);
    }
  }

  lemma OutGrows(logs: seq<Data>, logs': seq<Data>, out: Out)
    requires LogsGrow(logs, logs') && OutOk(logs, out)
    ensures OutOk(logs', out)
  {
    hide LedgerIn, LedgerOk, Window, Ordered;
    LedgerGrows(logs, logs', out.ledger);
    forall i | 0 <= i < |out.inflight| ensures InflightOk(logs', out.inflight[i]) {
      assert InflightOk(logs, out.inflight[i]);
      assert DataGrows(logs[out.inflight[i].filterIdx], logs'[out.inflight[i].filterIdx]);
    }
    forall k | 0 <= k < |out.sent| ensures SentOk(logs', out.sent[k]) {
      assert SentOk(logs, out.sent[k]);
      assert DataGrows(logs[out.sent[k].filterIdx], logs'[out.sent[k].filterIdx]);
    }
  }

  lemma SessionsGrow(logs: seq<Data>, logs': seq<Data>, sess: map<ConnectionId, Session>)
    requires LogsGrow(logs, logs') && SessionsOk(logs, sess)
    ensures SessionsOk(logs', sess)
  {
    forall id | id in sess ensures SessionOk(logs', sess[id]) {
      var s := sess[id];
      assert SessionOk(logs, s);
      OutGrows(logs, logs', s.out);
      forall k | 0 <= k < |s.reqs| ensures TokenOf(logs', s, s.reqs[k]) {
        TokenGrows(logs, logs', s, s.reqs[k]);
      }
    }
  }

  lemma NotesGrow(logs: seq<Data>, logs': seq<Data>, sess: map<ConnectionId, Session>, notes: seq<Waiter>)
    requires LogsGrow(logs, logs') && NotesOk(logs, sess, notes)
    ensures NotesOk(logs', sess, notes)
  {
    forall k | 0 <= k < |notes| ensures NoteOk(logs', sess, notes[k]) {
      assert NoteOk(logs, sess, notes[k]);
      TokenGrows(logs, logs', sess[notes[k].0], notes[k].1);
    }
  }

  lemma SavedGrows(logs: seq<Data>, logs': seq<Data>, index: map<Text, FilterIdx>, index': map<Text, FilterIdx>,
                   v: Saved)
    requires LogsGrow(logs, logs') && SavedOk(logs, index, v)
    requires forall f :: f in index ==> f in index'
    ensures SavedOk(logs', index', v)
  {
    hide OutOk, ReadsOk;
    OutGrows(logs, logs', EmptyOut(v.unackedPubrels, v.ledger));
    forall k | 0 <= k < |v.reqs| ensures SavedTokenOk(logs', v, v.reqs[k]) {
      assert SavedTokenOk(logs, v, v.reqs[k]);
      assert DataGrows(logs[v.reqs[k].filterIdx], logs'[v.reqs[k].filterIdx]);
    }
  }

  // ---------------------------------------------------------------- where subscriptions begin

  /** The store only adds to what subscriptions have begun from. */
  ghost predicate KeepsBeginnings(a: Store, b: Store) {
    && a.accepted <= b.accepted
    && |a.logs| <= |b.logs|
    && (forall f :: f in a.index ==> f in b.index && b.index[f] == a.index[f])
    && (forall j :: 0 <= j < |a.logs| ==> b.logs[j].born == a.logs[j].born)
  }

  lemma BeginsStill(a: Store, b: Store, f: Text, o: Origin)
    requires KeepsBeginnings(a, b) && Begins(a, f, o)
    ensures Begins(b, f, o)
  {
    var born := a.logs[a.index[f]].born;
    assert b.accepted[born..o.since] == a.accepted[born..o.since];
  }

  lemma OriginsStay(a: Store, b: Store, sess: map<ConnectionId, Session>, grave: map<Text, Saved>)
    requires KeepsBeginnings(a, b) && OriginsOk(a, sess, grave)
    ensures OriginsOk(b, sess, grave)
  {
    hide KeepsBeginnings, Begins;
    forall id, f | id in sess && f in sess[id].origin ensures Begins(b, f, sess[id].origin[f]) {
      assert AllBegin(a, sess[id].origin);
      BeginsStill(a, b, f, sess[id].origin[f]);
    }
    forall c, f | c in grave && f in grave[c].origin ensures Begins(b, f, grave[c].origin[f]) {
      assert AllBegin(a, grave[c].origin);
      BeginsStill(a, b, f, grave[c].origin[f]);
    }
  }

  lemma OriginsWith(store: Store, sess: map<ConnectionId, Session>, grave: map<Text, Saved>, id: ConnectionId,
                    s: Session)
    requires OriginsOk(store, sess, grave) && AllBegin(store, s.origin)
    ensures OriginsOk(store, sess[id := s], grave)
  {
    hide AllBegin;
  }
}
