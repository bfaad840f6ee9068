/** What one read gives a connection, and what the forwards of a connection are. */
module RouterGiven {
  import opened Basics
  import opened LogSpec
  import opened RouterTypes
  import opened StoreSpec
  import opened Topics
  import opened WindowSpec
  import opened RouterSpec
  import opened RouterInv
  import opened RouterForward
  import opened RouterRun
  import opened RouterOrder

  // ---------------------------------------------------------------- one read

  /** The retained messages that a request is still owed: those that its filter selects, or none. */
  ghost predicate StillOwed(store: Store, r: DataRequest, kept: seq<Publish>) {
    if r.forwardRetained then Selects(store.retained, r.filter, kept) else kept == []
  }

  /** How many publishes a request may read at once. */
  function Limit(s: Session, r: DataRequest, cfg: Config): int {
    if r.qos.AtMostOnce? then cfg.maxOutgoing else 100 - |s.out.inflight|
  }

  /** The forward is this publish, given from this position with the QoS of the request. */
  ghost predicate GivenAs(g: Forward, r: DataRequest, p: Publish, place: Option<nat>) {
    && g.filterIdx == r.filterIdx
    && Brings(g, p, r.qos)
    && match place
       case Some(offset) => g.cursor.Some? && g.cursor.value.1 == offset
       case None => g.cursor.None?
  }

  /** `news` are the retained messages `kept` and then the log from `from` on, as far as `limit` goes. */
  ghost predicate ReadOut(d: Data, r: DataRequest, kept: seq<Publish>, from: nat, limit: int, news: seq<Forward>) {
    && from <= |d.hist|
    && |news| == (if limit < |kept| + |d.hist| - from then limit else |kept| + |d.hist| - from)
    && (forall k :: 0 <= k < |news| && k < |kept| ==> GivenAs(news[k], r, kept[k], None))
    && (forall k :: |kept| <= k < |news| ==>
          GivenAs(news[k], r, d.hist[from + k - |kept|], Some(from + k - |kept|)))
  }

  /** The request stands behind what it has read of the log, and is owed no retained messages any more. */
  ghost predicate MovesOn(r: DataRequest, kept: nat, from: nat, news: nat, r': DataRequest) {
    && r'.cursor.1 == from + (if news > kept then news - kept else 0)
    && r' == r.(cursor := r'.cursor, readCount := r.readCount + news, forwardRetained := false)
  }

  /** What the answer of a read says. */
  ghost predicate Answers(s: Session, news: nat, end: bool, status: ConsumeStatus) {
    var full := news > 0 && |s.wire.buffer| + news >= 199;
    status == if full then BufferFull else if end then FilterCaughtup else PartialRead
  }

  /** The connection after it has been given these forwards: those of a QoS above 0 have entered the window,
      all have been put in the buffer, and behind them a request to be unscheduled if it is full. */
  ghost predicate HasBeenGiven(s: Session, news: seq<Forward>, s': Session) {
    var full := news != [] && |s.wire.buffer| + |news| >= 199;
    var notes := ForwardNotes(news) + if full then [Unschedule] else [];
    && s'.out.sent == s.out.sent + news
    && s'.out.inflight == s.out.inflight + Entering(news)
    && s'.out.unackedPubrels == s.out.unackedPubrels && s'.out.ledger.taken == s.out.ledger.taken
    && s'.wire.buffer == s.wire.buffer + notes && s'.wire.all == s.wire.all + notes
    && s' == s.(out := s'.out, wire := s'.wire)
  }

  lemma MadeAsRead(d: Data, r: DataRequest, owed: seq<Publish>, from: nat, items: seq<Entry>)
    requires Stretch(d.log, d.hist, from, items)
    ensures var ps := RetainedForwards(owed, r.filterIdx, r.qos) + LogForwards(items, r.filterIdx, r.qos);
            && AllWith(ps, r.qos)
            && (forall k :: 0 <= k < |owed| ==> GivenAs(ps[k], r, owed[k], None))
            && (forall k :: |owed| <= k < |ps| ==>
                  GivenAs(ps[k], r, d.hist[from + k - |owed|], Some(from + k - |owed|)))
  {
    var ps := RetainedForwards(owed, r.filterIdx, r.qos) + LogForwards(items, r.filterIdx, r.qos);
    forall k | |owed| <= k < |ps|
      ensures ps[k].publish.qos == r.qos && GivenAs(ps[k], r, d.hist[from + k - |owed|], Some(from + k - |owed|))
    {
      assert ps[k] == LogForwards(items, r.filterIdx, r.qos)[k - |owed|];
    }
  }

  lemma ReadIsStretch(d: Data, c: Cursor, len: nat)
    requires Holds(d.log, d.hist) && ValidCursor(d.log, c)
    ensures var (pos, items) := ReadV(d.log, c, len);
            var from := Max(c.1, d.log.HeadOffset());
            && from <= |d.hist| && Stretch(d.log, d.hist, from, items) && |items| == Min(len, |d.hist| - from)
            && pos.end.1 == from + |items| && (pos.Done? <==> pos.end.1 == |d.hist|)
  {
    hide ReadV, Holds, Stretch;
    ValidCursorResumes(d.log, d.hist, c);
    ReadVRefinesHistory(d.log, d.hist, c, len);
  }

  lemma ReadGives(r: DataRequest, store: Store, slots: nat, kept: seq<Publish>)
    requires r.filterIdx < |store.logs| && ValidCursor(store.logs[r.filterIdx].log, r.cursor)
    requires Holds(store.logs[r.filterIdx].log, store.logs[r.filterIdx].hist)
    requires kept == if r.forwardRetained then RetainedFor(store.retained, r.filter) else []
    ensures var d := store.logs[r.filterIdx];
            var from := Max(r.cursor.1, d.log.HeadOffset());
            var (pos, r', ps) := ReadRequest(r, store, slots);
            && ReadOut(d, r, kept, from, slots, ps)
            && MovesOn(r, |kept|, from, |ps|, r')
            && (pos.Done? <==> r'.cursor.1 == |d.hist|)
            && AllWith(ps, r.qos)
  {
    hide RetainedFor, ReadV, Holds, ValidCursor, Stretch, GivenAs, AllWith, RetainedForwards, LogForwards;
    var d := store.logs[r.filterIdx];
    var owed := OwedRetained(store, r, slots);
    var from := Max(r.cursor.1, d.log.HeadOffset());
    ReadIsStretch(d, r.cursor, slots - |owed|);
    MadeAsRead(d, r, owed, from, ReadV(d.log, r.cursor, slots - |owed|).1);
  }

  lemma DeliverGives(s: Session, ps: seq<Forward>, qos: QoS)
    requires AllWith(ps, qos) && ps != []
    ensures var (s', full) := Deliver(s, ps, qos);
            var news := PushForwards(s.out, ps, qos).1;
            && HasBeenGiven(s, news, s')
            && (full <==> |s.wire.buffer| + |news| >= MAX_CHANNEL_CAPACITY - 1)
            && |news| == |ps|
            && forall k :: 0 <= k < |ps| ==> news[k] == ps[k].(publish := ps[k].publish.(pkid := news[k].publish.pkid))
  {
    hide Entering, Tickets, ForwardNotes, Wake;
    var news := PushForwards(s.out, ps, qos).1;
    assert AllWith(news, qos) by {
      forall k | 0 <= k < |news| ensures news[k].publish.qos == qos {
        assert ps[k].publish.qos == qos;
      }
    }
    EnteringAll(news, qos);
    var full := |s.wire.buffer| + |news| >= MAX_CHANNEL_CAPACITY - 1;
    WakeLeaves(PushNotes(s.wire, ForwardNotes(news) + if full then [Unschedule] else []));
    assert s.out.inflight + [] == s.out.inflight;
  }

  /** The read has given these retained messages, and what the log has behind the cursor of the request, as
      much as there is room for. */
  ghost predicate Gives(store: Store, s: Session, r: DataRequest, cfg: Config, kept: seq<Publish>, news: seq<Forward>)
    requires r.filterIdx < |store.logs| && |s.out.inflight| <= MAX_INFLIGHT
  {
    var d := store.logs[r.filterIdx];
    var from := Max(r.cursor.1, d.log.HeadOffset());
    var (s', r', status) := ForwardData(s, r, store, cfg);
    && StillOwed(store, r, kept)
    && HasBeenGiven(s, news, s')
    && if Limit(s, r, cfg) == 0 && !r.qos.AtMostOnce? then news == [] && r' == r && status.WindowFull?
       else
         && ReadOut(d, r, kept, from, Limit(s, r, cfg), news)
         && MovesOn(r, |kept|, from, |news|, r')
         && Answers(s, |news|, r'.cursor.1 == |d.hist|, status)
  }

  lemma RenumberedReadOut(d: Data, r: DataRequest, kept: seq<Publish>, from: nat, limit: int, ps: seq<Forward>,
                          news: seq<Forward>)
    requires ReadOut(d, r, kept, from, limit, ps) && |news| == |ps|
    requires forall k :: 0 <= k < |ps| ==> news[k] == ps[k].(publish := ps[k].publish.(pkid := news[k].publish.pkid))
    ensures ReadOut(d, r, kept, from, limit, news)
  {
    forall k | 0 <= k < |news| && k < |kept| ensures GivenAs(news[k], r, kept[k], None) {
      assert GivenAs(ps[k], r, kept[k], None);
    }
    forall k | |kept| <= k < |news|
      ensures GivenAs(news[k], r, d.hist[from + k - |kept|], Some(from + k - |kept|))
    {
      assert GivenAs(ps[k], r, d.hist[from + k - |kept|], Some(from + k - |kept|));
    }
  }

  lemma GivenNothing(s: Session, gone: set<(FilterIdx, nat)>)
    ensures HasBeenGiven(s, [], Noted(s, gone))
  {
    assert s.out.sent + [] == s.out.sent && s.out.inflight + Entering([]) == s.out.inflight;
    assert ForwardNotes([]) + [] == [];
    assert s.wire.buffer + [] == s.wire.buffer && s.wire.all + [] == s.wire.all;
  }

  lemma GivenAfterNoting(s: Session, gone: set<(FilterIdx, nat)>, news: seq<Forward>, s': Session)
    requires HasBeenGiven(Noted(s, gone), news, s')
    ensures HasBeenGiven(s, news, s')
  {
    hide Entering, ForwardNotes;
  }

  /** One read of a request: which publishes it gives, in which order, how many, with which QoS, what of them
      enters the window and the buffer, where the request stands then, and what the answer means. */
  lemma ForwardGives(store: Store, s: Session, r: DataRequest, cfg: Config)
    returns (kept: seq<Publish>, news: seq<Forward>)
    requires r.filterIdx < |store.logs| && |s.out.inflight| <= MAX_INFLIGHT
    requires Holds(store.logs[r.filterIdx].log, store.logs[r.filterIdx].hist)
    requires ValidCursor(store.logs[r.filterIdx].log, r.cursor) && cfg.maxOutgoing >= 1
    ensures Gives(store, s, r, cfg, kept, news)
  {
    hide RetainedFor, Selects, ReadRequest, ReadOut, Deliver, Noted, MissedBy, HasBeenGiven, Holds, ValidCursor,
         AllWith;
    kept := if r.forwardRetained then RetainedFor(store.retained, r.filter) else [];
    news := [];
    RetainedForSelects(store.retained, r.filter);
    var gone := MissedBy(r, store.logs[r.filterIdx].log);
    var slots := Limit(s, r, cfg);
    GivenNothing(s, {});
    GivenNothing(s, gone);
    assert Noted(s, {}) == s by { NotedNothing(s); }
    if r.qos.AtMostOnce? || slots != 0 {
      ReadGives(r, store, slots, kept);
      var (pos, r', ps) := ReadRequest(r, store, slots);
      var d, from := store.logs[r.filterIdx], Max(r.cursor.1, store.logs[r.filterIdx].log.HeadOffset());
      NothingLeft(d, r, kept, from, slots, ps, r');
      if ps != [] {
        var noted := Noted(s, gone);
        NotedLeaves(s, gone);
        DeliverGives(noted, ps, r.qos);
        news := PushForwards(noted.out, ps, r.qos).1;
        GivenAfterNoting(s, gone, news, Deliver(noted, ps, r.qos).0);
        RenumberedReadOut(d, r, kept, from, slots, ps, news);
      }
    }
  }

  /** The first read that a request gets of its retained messages is the last: all that its filter selects are
      given exactly if there are no more of them than it may read at once. */
  lemma AllRetainedGivenIff(store: Store, s: Session, r: DataRequest, cfg: Config, kept: seq<Publish>, news: seq<Forward>)
    requires r.filterIdx < |store.logs| && |s.out.inflight| <= MAX_INFLIGHT
    requires Gives(store, s, r, cfg, kept, news) && r.forwardRetained && Limit(s, r, cfg) > 0
    ensures !ForwardData(s, r, store, cfg).1.forwardRetained
    ensures |kept| <= Limit(s, r, cfg) <==>
            |kept| <= |news| && forall k :: 0 <= k < |kept| ==> GivenAs(news[k], r, kept[k], None)
  {
    hide ForwardData, HasBeenGiven, GivenAs, StillOwed;
  }

  lemma NotedNothing(s: Session)
    ensures Noted(s, {}) == s
  {
    assert s.out.ledger.missed + {} == s.out.ledger.missed;
  }

  lemma NotedLeaves(s: Session, gone: set<(FilterIdx, nat)>)
    ensures Noted(s, gone).wire == s.wire
  {
  }

  lemma NothingLeft(d: Data, r: DataRequest, kept: seq<Publish>, from: nat, slots: int, ps: seq<Forward>,
                    r': DataRequest)
    requires ReadOut(d, r, kept, from, slots, ps) && MovesOn(r, |kept|, from, |ps|, r')
    ensures ps == [] && slots > 0 ==> r'.cursor.1 == |d.hist|
  {
  }

  // ---------------------------------------------------------------- in every state

  lemma ReadableAt(st: State, id: ConnectionId, r: DataRequest)
    requires Inv(st) && Has(st, id, r)
    ensures id in st.sess && r.filterIdx < |st.store.logs| && |st.sess[id].out.inflight| <= MAX_INFLIGHT
    ensures Holds(st.store.logs[r.filterIdx].log, st.store.logs[r.filterIdx].hist)
    ensures ValidCursor(st.store.logs[r.filterIdx].log, r.cursor) && st.cfg.maxOutgoing >= 1
  {
    hide StoreOk, SessionsOk, WaitersOk, CountsOk, ReadyOk, GraveOk, OriginsOk, Has, ReadsOk, Holds, ValidCursor,
         WireOk, EnteredOk, Ordered, LedgerOk, LedgerIn, InflightOk, SentOk, AllFull, ClientsOk;
    RequestIsOk(st, id, r);
    OutAt(st, id);
  }

  /** A read of any request of a connection gives exactly this. */
  lemma EveryReadGives(st: State, id: ConnectionId, r: DataRequest)
    requires Inv(st) && Has(st, id, r)
    ensures id in st.sess && r.filterIdx < |st.store.logs| && |st.sess[id].out.inflight| <= MAX_INFLIGHT
    ensures exists kept, news :: Gives(st.store, st.sess[id], r, st.cfg, kept, news)
  {
    hide Inv, Has, Gives, Holds, ValidCursor;
    ReadableAt(st, id, r);
    var kept, news := ForwardGives(st.store, st.sess[id], r, st.cfg);
  }

  /** What a subscription has been given since its connection started has its QoS; the retained messages it
      has been given if they were owed and are no longer, once. */
  lemma GivenInEveryState(st: State, id: ConnectionId, r: DataRequest)
    requires Inv(st) && Has(st, id, r)
    ensures id in st.sess && r.filter in st.sess[id].origin
    ensures st.sess[id].origin[r.filter].mark <= |st.sess[id].out.sent|
    ensures var o := st.sess[id].origin[r.filter]; GivenOk(o.owed, st.sess[id].out.sent[o.mark..], r)
  {
    hide Inv, Has, GivenOk, OutOk, ValidCursor;
    RequestIsOk(st, id, r);
    ReadsAt(st.store.logs, st.sess[id], r);
  }

  /** Everything a connection has been sent is a publish from the log of a filter, or a retained message that
      matches it; what had a QoS above 0 has entered the window. */
  lemma SentInEveryState(st: State, id: ConnectionId)
    requires Inv(st) && id in st.sess
    ensures EnteredOk(st.sess[id].out)
    ensures forall k :: 0 <= k < |st.sess[id].out.sent| ==> SentOk(st.store.logs, st.sess[id].out.sent[k])
  {
    hide Inv, EnteredOk, Ordered, LedgerOk, LedgerIn, InflightOk, SentOk, WireOk, Window;
    OutAt(st, id);
  }

  /** There is at most one retained message for a topic: the last one accepted. */
  lemma RetainedInEveryState(st: State)
    requires Inv(st)
    ensures RetainedOk(st.store.retained, st.store.accepted)
  {
    hide SessionsOk, WaitersOk, CountsOk, ReadyOk, GraveOk, OriginsOk, RetainedOk, CacheOk, IndexOk, HistOk, ShapesOk;
  }

  /** A saved request will be owed the retained messages at the next connection exactly if it still is. */
  lemma SavedOwesInEveryState(st: State, client: Text, k: nat)
    requires Inv(st) && client in st.grave && k < |st.grave[client].reqs|
    ensures var v := st.grave[client];
            v.reqs[k].filter in v.origin && v.origin[v.reqs[k].filter].owed == v.reqs[k].forwardRetained
  {
    hide StoreOk, SessionsOk, WaitersOk, CountsOk, ReadyOk, OriginsOk, OutOk, ReadsOk, ValidCursor, CountReqs;
    assert SavedOk(st.store.logs, st.store.index, st.grave[client]);
    assert SavedTokenOk(st.store.logs, st.grave[client], st.grave[client].reqs[k]);
  }
}
