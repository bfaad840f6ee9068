/** Forwarding from a log keeps the window, the account of every request, and the wire in order. */
module RouterForward {
  import opened Basics
  import opened LogSpec
  import opened LogReader
  import opened RouterTypes
  import opened StoreSpec
  import opened Topics
  import opened WindowSpec
  import opened RouterSpec
  import opened RouterInv

  // ---------------------------------------------------------------- what is read

  /** A good read: the stretch of the history from the resume point, ending just after it. */
  ghost predicate GoodRead(d: Data, c: Cursor, end: Cursor, items: seq<Entry>) {
    var from := Max(c.1, d.log.HeadOffset());
    && Stretch(d.log, d.hist, from, items)
    && end.1 == from + |items|
    && ValidCursor(d.log, end)
  }

  lemma ReadIsGood(d: Data, c: Cursor, len: nat)
    requires Holds(d.log, d.hist) && ValidCursor(d.log, c)
    ensures var (pos, items) := ReadV(d.log, c, len);
            && GoodRead(d, c, pos.end, items)
            && |items| <= len
            && (pos.Done? ==> pos.end.1 == |d.hist|)
            && (len >= 1 && items == [] ==> pos.end.1 == |d.hist|)
  {
    ValidCursorResumes(d.log, d.hist, c);
    ReadVRefinesHistory(d.log, d.hist, c, len);
  }

  lemma GoodReadDelivers(d: Data, start: nat, c: Cursor, end: Cursor, items: seq<Entry>, missed: set<nat>,
                         offsets: seq<nat>)
    requires GoodRead(d, c, end, items) && Delivered(start, c.1, missed, offsets) && Gone(d.log, missed)
    ensures Delivered(start, end.1, missed + Behind(d.log, c), offsets + Offsets(items))
  {
    DeliveredGrows(d.log, start, c, missed, offsets, end, Offsets(items));
  }

  // ---------------------------------------------------------------- what is missed

  lemma MissedHere(missed: set<(FilterIdx, nat)>, r: DataRequest, log: LaidLog)
    ensures MissedOf(missed + MissedBy(r, log), r.filterIdx) == MissedOf(missed, r.filterIdx) + Behind(log, r.cursor)
  {
    var f, all, gone := r.filterIdx, missed + MissedBy(r, log), Behind(log, r.cursor);
    forall p ensures p in MissedOf(all, f) <==> p in MissedOf(missed, f) + gone {
      assert p in MissedOf(all, f) <==> (f, p) in all;
      assert p in MissedOf(missed, f) <==> (f, p) in missed;
      assert (f, p) in MissedBy(r, log) <==> p in gone;
    }
  }

  lemma MissedElsewhere(missed: set<(FilterIdx, nat)>, r: DataRequest, log: LaidLog, g: FilterIdx)
    requires g != r.filterIdx
    ensures MissedOf(missed + MissedBy(r, log), g) == MissedOf(missed, g)
  {
    var all := missed + MissedBy(r, log);
    forall p ensures p in MissedOf(all, g) <==> p in MissedOf(missed, g) {
      assert p in MissedOf(all, g) <==> (g, p) in all;
      assert p in MissedOf(missed, g) <==> (g, p) in missed;
    }
  }

  lemma MissedIsGone(logs: seq<Data>, l: Ledger, f: FilterIdx)
    requires LedgerIn(logs, l) && f < |logs|
    ensures Gone(logs[f].log, MissedOf(l.missed, f))
  {
  }

  // ---------------------------------------------------------------- what is pushed

  /** `fs` is some retained messages followed by the items read, all for one filter. */
  ghost predicate Carries(fs: seq<Forward>, n: nat, items: seq<Entry>, f: FilterIdx) {
    && |fs| == n + |items|
    && (forall k :: 0 <= k < n ==> fs[k].filterIdx == f && fs[k].cursor.None?)
    && (forall k :: n <= k < |fs| ==> CarriesItem(fs[k], items[k - n], f))
  }

  ghost predicate CarriesItem(g: Forward, e: Entry, f: FilterIdx) {
    g.filterIdx == f && g.cursor == Some(e.1) && Delivers(g.publish, e.0)
  }

  /** All of them have this QoS, and the retained messages may be given for the filter, one for each topic. */
  ghost predicate Offered(fs: seq<Forward>, n: nat, filter: Text, qos: QoS) {
    && n <= |fs| && AllWith(fs, qos)
    && (forall k :: 0 <= k < n ==> MayBeGiven(fs[k].publish, filter))
    && (forall i, k :: 0 <= i < k < n ==> fs[i].publish.topic != fs[k].publish.topic)
  }

  lemma NumberedOffered(fs: seq<Forward>, last: LastPkid, n: nat, filter: Text, qos: QoS)
    requires Offered(fs, n, filter, qos)
    ensures Offered(Numbered(fs, last), n, filter, qos)
  {
    hide Matches;
    var numbered := Numbered(fs, last);
    forall k | 0 <= k < |numbered| ensures numbered[k].publish.qos == qos {
      assert fs[k].publish.qos == qos;
    }
  }

  /** These forwards were pushed, for a read that had missed the positions of `gone`. */
  ghost predicate Pushed(out: Out, out': Out, fs: seq<Forward>, qos: QoS, gone: set<(FilterIdx, nat)>) {
    && out'.sent == out.sent + fs
    && out'.inflight == out.inflight + (if qos.AtMostOnce? then [] else Tickets(fs))
    && out'.ledger == out.ledger.(missed := out.ledger.missed + gone)
  }

  lemma NumberedCarries(fs: seq<Forward>, last: LastPkid, n: nat, items: seq<Entry>, f: FilterIdx)
    requires Carries(fs, n, items, f)
    ensures Carries(Numbered(fs, last), n, items, f)
  {
    var numbered := Numbered(fs, last);
    forall k | n <= k < |fs| ensures CarriesItem(numbered[k], items[k - n], f) {
      assert CarriesItem(fs[k], items[k - n], f);
    }
  }

  lemma PushForwardsIs(s: Session, fs: seq<Forward>, qos: QoS, n: nat, items: seq<Entry>, f: FilterIdx,
                       gone: set<(FilterIdx, nat)>, filter: Text)
    requires Carries(fs, n, items, f) && Offered(fs, n, filter, qos)
    ensures var (out', gs) := PushForwards(Noted(s, gone).out, fs, qos);
            Pushed(s.out, out', gs, qos, gone) && Carries(gs, n, items, f) && Offered(gs, n, filter, qos)
  {
    hide Carries, Offered;
    NumberedCarries(fs, s.out.lastPkid, n, items, f);
    NumberedOffered(fs, s.out.lastPkid, n, filter, qos);
  }

  lemma ItemIsNotRetained(fs: seq<Forward>, n: nat, items: seq<Entry>, f: FilterIdx, k: nat)
    requires Carries(fs, n, items, f) && n <= k < |fs|
    ensures !IsRetained(fs[k], f)
  {
    hide Delivers;
    assert CarriesItem(fs[k], items[k - n], f);
  }

  /** The request has now been given the retained messages, if it was owed them. */
  lemma ReaderGiven(owed: bool, since: seq<Forward>, fs: seq<Forward>, n: nat, items: seq<Entry>, filter: Text,
                    r: DataRequest, r': DataRequest)
    requires GivenOk(owed, since, r) && Carries(fs, n, items, r.filterIdx) && Offered(fs, n, filter, r.qos)
    requires n > 0 ==> r.forwardRetained
    requires r'.filterIdx == r.filterIdx && r'.qos == r.qos && !r'.forwardRetained
    ensures GivenOk(owed, since + fs, r')
  {
    hide Carries, MayBeGiven;
    forall k | n <= k < |fs| ensures !IsRetained(fs[k], r.filterIdx) {
      ItemIsNotRetained(fs, n, items, r.filterIdx, k);
    }
    GivenMore(owed, since, fs, n, r, r');
  }

  lemma GivenMore(owed: bool, since: seq<Forward>, fs: seq<Forward>, n: nat, r: DataRequest, r': DataRequest)
    requires GivenOk(owed, since, r) && n <= |fs| && AllWith(fs, r.qos) && (n > 0 ==> r.forwardRetained)
    requires forall k :: n <= k < |fs| ==> !IsRetained(fs[k], r.filterIdx)
    requires forall i, k :: 0 <= i < k < n ==> fs[i].publish.topic != fs[k].publish.topic
    requires r'.filterIdx == r.filterIdx && r'.qos == r.qos && !r'.forwardRetained
    ensures GivenOk(owed, since + fs, r')
  {
    var all := since + fs;
    forall k | |since| <= k < |all| ensures all[k] == fs[k - |since|] {
    }
  }

  lemma OthersGiven(owed: bool, since: seq<Forward>, fs: seq<Forward>, q: DataRequest)
    requires GivenOk(owed, since, q) && forall k :: 0 <= k < |fs| ==> fs[k].filterIdx != q.filterIdx
    ensures GivenOk(owed, since + fs, q)
  {
  }

  lemma {:induction false} PositionsOfCarried(fs: seq<Forward>, n: nat, items: seq<Entry>, f: FilterIdx)
    requires Carries(fs, n, items, f)
    ensures Positions(fs, f) == Offsets(items)
  {
    if fs != [] {
      var last := |fs| - 1;
      if items == [] {
        assert Carries(fs[..last], n - 1, [], f);
        PositionsOfCarried(fs[..last], n - 1, [], f);
      } else {
        var less := items[..|items| - 1];
        forall k | n <= k < last ensures CarriesItem(fs[..last][k], less[k - n], f) {
          assert CarriesItem(fs[k], items[k - n], f);
        }
        PositionsOfCarried(fs[..last], n, less, f);
        assert CarriesItem(fs[last], items[last - n], f);
        assert Offsets(items) == Offsets(less) + [items[last - n].1.1];
      }
    }
  }

  lemma {:induction false} PositionsElsewhere(fs: seq<Forward>, g: FilterIdx)
    requires forall k :: 0 <= k < |fs| ==> fs[k].filterIdx != g
    ensures Positions(fs, g) == []
  {
    if fs != [] {
      PositionsElsewhere(fs[..|fs| - 1], g);
    }
  }

  lemma CarriedBelongs(fs: seq<Forward>, n: nat, items: seq<Entry>, f: FilterIdx)
    requires Carries(fs, n, items, f)
    ensures forall k :: 0 <= k < |fs| ==> fs[k].filterIdx == f
  {
    forall k | 0 <= k < |fs| ensures fs[k].filterIdx == f {
      if k >= n {
        assert CarriesItem(fs[k], items[k - n], f);
      }
    }
  }

  // ---------------------------------------------------------------- requests of other filters

  lemma AccountGrows(out: Out, out': Out, fs: seq<Forward>, qos: QoS, gone: set<(FilterIdx, nat)>, f: FilterIdx, p: nat)
    requires Pushed(out, out', fs, qos, gone) && Accounted(out, f, p)
    ensures Accounted(out', f, p)
  {
    if Waits(out.inflight, f, p) {
      var i :| 0 <= i < |out.inflight| && (f, p) in LogPlace(out.inflight[i]);
      assert out'.inflight[i] == out.inflight[i];
    }
  }

  lemma SettledGrows(first: nat, end: nat, out: Out, out': Out, fs: seq<Forward>, qos: QoS,
                     gone: set<(FilterIdx, nat)>, f: FilterIdx)
    requires Pushed(out, out', fs, qos, gone) && Settled(first, end, out, f)
    ensures Settled(first, end, out', f)
  {
    hide Accounted, Pushed;
    forall p: nat | first <= p < end ensures Accounted(out', f, p) {
      AccountGrows(out, out', fs, qos, gone, f, p);
    }
  }

  lemma BelowElsewhere(out: Out, out': Out, fs: seq<Forward>, qos: QoS, gone: set<(FilterIdx, nat)>, g: FilterIdx,
                       bound: nat)
    requires Pushed(out, out', fs, qos, gone) && Below(out.inflight, g, bound)
    requires forall k :: 0 <= k < |fs| ==> fs[k].filterIdx != g
    ensures Below(out'.inflight, g, bound)
  {
    assert forall k :: 0 <= k < |fs| ==> Tickets(fs)[k].filterIdx != g;
    forall i | 0 <= i < |out'.inflight| && out'.inflight[i].filterIdx == g && out'.inflight[i].cursor.Some?
      ensures out'.inflight[i].cursor.value.1 < bound
    {
      assert i < |out.inflight|;
    }
  }

  lemma SentSince(out: Out, out': Out, fs: seq<Forward>, qos: QoS, gone: set<(FilterIdx, nat)>, mark: nat, g: FilterIdx)
    requires Pushed(out, out', fs, qos, gone) && mark <= |out.sent|
    ensures Positions(out'.sent[mark..], g) == Positions(out.sent[mark..], g) + Positions(fs, g)
  {
    assert out'.sent[mark..] == out.sent[mark..] + fs;
    PositionsJoin(out.sent[mark..], fs, g);
  }

  /** A read for one filter changes nothing for the requests of others. */
  lemma OthersReadOn(logs: seq<Data>, s: Session, s': Session, fs: seq<Forward>, r: DataRequest, q: DataRequest)
    requires r.filterIdx < |logs| && Pushed(s.out, s'.out, fs, r.qos, MissedBy(r, logs[r.filterIdx].log))
    requires TokenOf(logs, s, q) && s'.subs == s.subs && s'.origin == s.origin && q.filterIdx != r.filterIdx
    requires forall k :: 0 <= k < |fs| ==> fs[k].filterIdx != q.filterIdx
    ensures TokenOf(logs, s', q)
  {
    hide Delivered, Settled, Below, MissedOf, MissedBy, GivenOk;
    var log, o := logs[r.filterIdx].log, s.origin[q.filter];
    var gone := MissedBy(r, log);
    assert s'.out.sent[o.mark..] == s.out.sent[o.mark..] + fs;
    OthersGiven(o.owed, s.out.sent[o.mark..], fs, q);
    PositionsElsewhere(fs, q.filterIdx);
    SentSince(s.out, s'.out, fs, r.qos, gone, o.mark, q.filterIdx);
    BelowElsewhere(s.out, s'.out, fs, r.qos, gone, q.filterIdx, q.cursor.1);
    MissedElsewhere(s.out.ledger.missed, r, log, q.filterIdx);
    var before := Positions(s.out.sent[o.mark..], q.filterIdx);
    assert before + [] == before;
    if !q.qos.AtMostOnce? {
      SettledGrows(o.first, q.cursor.1, s.out, s'.out, fs, r.qos, gone, q.filterIdx);
    }
  }

  // ---------------------------------------------------------------- the request that reads

  lemma TicketOfItem(out: Out, out': Out, fs: seq<Forward>, qos: QoS, gone: set<(FilterIdx, nat)>, n: nat,
                     items: seq<Entry>, f: FilterIdx, k: nat)
    requires Pushed(out, out', fs, qos, gone) && Carries(fs, n, items, f) && !qos.AtMostOnce? && k < |items|
    ensures Waits(out'.inflight, f, items[k].1.1)
  {
    assert CarriesItem(fs[n + k], items[n + k - n], f);
    assert out'.inflight[|out.inflight| + n + k] == Tickets(fs)[n + k];
  }

  /** Every position the request has come past is accounted for. */
  lemma ReaderSettles(d: Data, first: nat, r: DataRequest, end: Cursor, items: seq<Entry>, out: Out, out': Out,
                      fs: seq<Forward>, n: nat)
    requires Pushed(out, out', fs, r.qos, MissedBy(r, d.log)) && Carries(fs, n, items, r.filterIdx)
    requires GoodRead(d, r.cursor, end, items) && Settled(first, r.cursor.1, out, r.filterIdx) && !r.qos.AtMostOnce?
    ensures Settled(first, end.1, out', r.filterIdx)
  {
    hide Carries, Tickets;
    var from := Max(r.cursor.1, d.log.HeadOffset());
    SettledGrows(first, r.cursor.1, out, out', fs, r.qos, MissedBy(r, d.log), r.filterIdx);
    forall p: nat | first <= p < end.1 ensures Accounted(out', r.filterIdx, p) {
      if p >= from {
        assert items[p - from].1.1 == p;
        TicketOfItem(out, out', fs, r.qos, MissedBy(r, d.log), n, items, r.filterIdx, p - from);
      } else if p >= r.cursor.1 {
        assert (r.filterIdx, p) in MissedBy(r, d.log);
      }
    }
  }

  lemma ReaderBelow(d: Data, c: Cursor, end: Cursor, items: seq<Entry>, out: Out, out': Out,
                    fs: seq<Forward>, qos: QoS, gone: set<(FilterIdx, nat)>, n: nat, f: FilterIdx)
    requires Pushed(out, out', fs, qos, gone) && Carries(fs, n, items, f)
    requires GoodRead(d, c, end, items) && Below(out.inflight, f, c.1)
    ensures Below(out'.inflight, f, end.1)
  {
    forall i | 0 <= i < |out'.inflight| && out'.inflight[i].filterIdx == f && out'.inflight[i].cursor.Some?
      ensures out'.inflight[i].cursor.value.1 < end.1
    {
      if i >= |out.inflight| {
        var k := i - |out.inflight|;
        assert out'.inflight[i] == Tickets(fs)[k];
        assert CarriesItem(fs[k], items[k - n], f);
      }
    }
  }

  lemma ReaderPassed(d: Data, c: Cursor, end: Cursor, items: seq<Entry>, ledger: Ledger, ledger': Ledger, f: FilterIdx)
    requires GoodRead(d, c, end, items) && Passed(ledger, f, c.1)
    requires ledger'.acked == ledger.acked && ledger'.lost == ledger.lost
    ensures Passed(ledger', f, end.1)
  {
  }

  /** The request that reads stands after what it has been given. */
  lemma ReaderReadsOn(logs: seq<Data>, s: Session, s': Session, fs: seq<Forward>, n: nat, items: seq<Entry>,
                      r: DataRequest, r': DataRequest)
    requires TokenOf(logs, s, r) && LedgerIn(logs, s.out.ledger) && s'.subs == s.subs && s'.origin == s.origin
    requires Pushed(s.out, s'.out, fs, r.qos, MissedBy(r, logs[r.filterIdx].log))
    requires Carries(fs, n, items, r.filterIdx) && GoodRead(logs[r.filterIdx], r.cursor, r'.cursor, items)
    requires r'.filter == r.filter && r'.filterIdx == r.filterIdx && r'.qos == r.qos && !r'.forwardRetained
    requires Offered(fs, n, logs[r.filterIdx].filter, r.qos) && (n > 0 ==> r.forwardRetained)
    ensures TokenOf(logs, s', r')
  {
    hide Delivered, Settled, Below, Passed, Carries, GoodRead, MissedOf, MissedBy, LedgerIn, Offered, GivenOk;
    var d, o, f := logs[r.filterIdx], s.origin[r.filter], r.filterIdx;
    var gone := MissedBy(r, d.log);
    assert s'.out.sent[o.mark..] == s.out.sent[o.mark..] + fs;
    ReaderGiven(o.owed, s.out.sent[o.mark..], fs, n, items, d.filter, r, r');
    PositionsOfCarried(fs, n, items, f);
    SentSince(s.out, s'.out, fs, r.qos, gone, o.mark, f);
    MissedHere(s.out.ledger.missed, r, d.log);
    MissedIsGone(logs, s.out.ledger, f);
    GoodReadDelivers(d, o.start, r.cursor, r'.cursor, items, MissedOf(s.out.ledger.missed, f),
                     Positions(s.out.sent[o.mark..], f));
    ReaderBelow(d, r.cursor, r'.cursor, items, s.out, s'.out, fs, r.qos, gone, n, f);
    ReaderPassed(d, r.cursor, r'.cursor, items, s.out.ledger, s'.out.ledger, f);
    if !r.qos.AtMostOnce? {
      ReaderSettles(d, o.first, r, r'.cursor, items, s.out, s'.out, fs, n);
    }
    assert ValidCursor(d.log, r'.cursor) by { GoodReadEnds(d, r.cursor, r'.cursor, items); }
  }

  lemma GoodReadEnds(d: Data, c: Cursor, end: Cursor, items: seq<Entry>)
    requires GoodRead(d, c, end, items)
    ensures ValidCursor(d.log, end)
  {
  }

  // ---------------------------------------------------------------- the window

  lemma OwnedIsValid(log: LaidLog, c: Cursor)
    requires Owns(log, c)
    ensures ValidCursor(log, c)
  {
  }

  lemma TicketsOk(logs: seq<Data>, c: Cursor, end: Cursor, items: seq<Entry>, fs: seq<Forward>, n: nat, f: FilterIdx,
                  k: nat)
    requires f < |logs| && Carries(fs, n, items, f) && GoodRead(logs[f], c, end, items) && k < |fs|
    requires forall i :: 0 <= i < n ==> MayBeGiven(fs[i].publish, logs[f].filter)
    ensures InflightOk(logs, Tickets(fs)[k]) && SentOk(logs, fs[k])
  {
    hide Matches;
    if k >= n {
      assert CarriesItem(fs[k], items[k - n], f);
      OwnedIsValid(logs[f].log, items[k - n].1);
    }
  }

  lemma TicketsFollow(d: Data, c: Cursor, end: Cursor, items: seq<Entry>, fs: seq<Forward>, n: nat, f: FilterIdx)
    requires Carries(fs, n, items, f) && GoodRead(d, c, end, items)
    ensures Ordered(Tickets(fs))
    ensures forall k :: 0 <= k < |fs| && fs[k].cursor.Some? ==> fs[k].cursor.value.1 >= c.1
  {
    var ts := Tickets(fs);
    forall k | 0 <= k < |fs| && fs[k].cursor.Some?
      ensures k >= n && fs[k].cursor.value.1 == Max(c.1, d.log.HeadOffset()) + k - n
    {
      assert CarriesItem(fs[k], items[k - n], f);
    }
    assert forall i :: 0 <= i < |ts| ==> ts[i].cursor == fs[i].cursor;
  }

  lemma OrderedJoin(a: seq<Inflight>, b: seq<Inflight>, f: FilterIdx, mid: nat)
    requires Ordered(a) && Ordered(b) && Below(a, f, mid)
    requires forall k :: 0 <= k < |b| ==> b[k].filterIdx == f && (b[k].cursor.Some? ==> b[k].cursor.value.1 >= mid)
    ensures Ordered(a + b)
  {
    var all := a + b;
    forall i, j | 0 <= i < j < |all| && all[i].filterIdx == all[j].filterIdx && all[i].cursor.Some?
           && all[j].cursor.Some?
      ensures all[i].cursor.value.1 < all[j].cursor.value.1
    {
      if j < |a| {
        assert all[i] == a[i] && all[j] == a[j];
      } else if i >= |a| {
        assert all[i] == b[i - |a|] && all[j] == b[j - |a|];
      } else {
        assert all[i] == a[i] && all[j] == b[j - |a|];
      }
    }
  }

  lemma PushedOrdered(d: Data, c: Cursor, end: Cursor, items: seq<Entry>, out: Out, out': Out,
                      fs: seq<Forward>, qos: QoS, gone: set<(FilterIdx, nat)>, n: nat, f: FilterIdx)
    requires Pushed(out, out', fs, qos, gone) && Carries(fs, n, items, f) && GoodRead(d, c, end, items)
    requires Ordered(out.inflight) && Below(out.inflight, f, c.1)
    ensures Ordered(out'.inflight)
  {
    if !qos.AtMostOnce? {
      TicketsFollow(d, c, end, items, fs, n, f);
      CarriedBelongs(fs, n, items, f);
      OrderedJoin(out.inflight, Tickets(fs), f, c.1);
    } else {
      assert out'.inflight == out.inflight;
    }
  }

  lemma PushedEntries(logs: seq<Data>, c: Cursor, end: Cursor, items: seq<Entry>, out: Out, out': Out,
                      fs: seq<Forward>, qos: QoS, gone: set<(FilterIdx, nat)>, n: nat, f: FilterIdx)
    requires Pushed(out, out', fs, qos, gone) && Carries(fs, n, items, f)
    requires f < |logs| && GoodRead(logs[f], c, end, items) && Offered(fs, n, logs[f].filter, qos)
    requires forall i :: 0 <= i < |out.inflight| ==> InflightOk(logs, out.inflight[i])
    requires forall k :: 0 <= k < |out.sent| ==> SentOk(logs, out.sent[k])
    ensures forall i :: 0 <= i < |out'.inflight| ==> InflightOk(logs, out'.inflight[i])
    ensures forall k :: 0 <= k < |out'.sent| ==> SentOk(logs, out'.sent[k])
  {
    hide InflightOk, SentOk, Carries, GoodRead, MayBeGiven;
    forall i | 0 <= i < |out'.inflight| ensures InflightOk(logs, out'.inflight[i]) {
      if i < |out.inflight| {
        assert out'.inflight[i] == out.inflight[i];
      } else {
        TicketsOk(logs, c, end, items, fs, n, f, i - |out.inflight|);
      }
    }
    forall k | 0 <= k < |out'.sent| ensures SentOk(logs, out'.sent[k]) {
      if k < |out.sent| {
        assert out'.sent[k] == out.sent[k];
      } else {
        TicketsOk(logs, c, end, items, fs, n, f, k - |out.sent|);
      }
    }
  }

  /** What enters the window lies behind nothing that has left it. */
  lemma PushedLedger(d: Data, c: Cursor, end: Cursor, items: seq<Entry>, out: Out, out': Out,
                     fs: seq<Forward>, qos: QoS, gone: set<(FilterIdx, nat)>, n: nat, f: FilterIdx)
    requires Pushed(out, out', fs, qos, gone) && Carries(fs, n, items, f) && GoodRead(d, c, end, items)
    requires LedgerOk(out) && Passed(out.ledger, f, c.1)
    ensures LedgerOk(out')
  {
    hide Carries, GoodRead, TakenBy;
    TicketsFollow(d, c, end, items, fs, n, f);
    CarriedBelongs(fs, n, items, f);
    var left, l := out.ledger.acked + out.ledger.lost, |out.inflight|;
    assert out'.ledger.acked + out'.ledger.lost == left;
    forall place, i | place in left && 0 <= i < |out'.inflight| && out'.inflight[i].filterIdx == place.0
                      && out'.inflight[i].cursor.Some?
      ensures place.1 < out'.inflight[i].cursor.value.1
    {
      if i < l {
        assert out'.inflight[i] == out.inflight[i];
      } else {
        assert out'.inflight[i] == Tickets(fs)[i - l];
      }
    }
  }

  lemma MissedIn(logs: seq<Data>, l: Ledger, r: DataRequest)
    requires LedgerIn(logs, l) && r.filterIdx < |logs|
    ensures LedgerIn(logs, l.(missed := l.missed + MissedBy(r, logs[r.filterIdx].log)))
  {
  }

  // ---------------------------------------------------------------- the wire

  lemma {:induction false} NoForwardsInAcks(acks: seq<Ack>)
    ensures Forwards(AckNotes(acks)) == []
  {
    if acks != [] {
      NoForwardsInAcks(acks[..|acks| - 1]);
      assert AckNotes(acks)[..|acks| - 1] == AckNotes(acks[..|acks| - 1]);
    }
  }

  lemma {:induction false} ForwardsOfNotes(fs: seq<Forward>)
    ensures Forwards(ForwardNotes(fs)) == fs
  {
    if fs != [] {
      ForwardsOfNotes(fs[..|fs| - 1]);
      assert ForwardNotes(fs)[..|fs| - 1] == ForwardNotes(fs[..|fs| - 1]);
    }
  }

  lemma ForwardsThenUnschedule(fs: seq<Forward>)
    ensures Forwards(ForwardNotes(fs) + [Unschedule]) == fs
  {
    ForwardsOfNotes(fs);
    assert (ForwardNotes(fs) + [Unschedule])[..|fs|] == ForwardNotes(fs);
  }

  /** The builder of the link has its wake-up. */
  ghost predicate Primed(s: Session) { s.wire.link.Building? ==> s.wire.wakes >= 1 }

  /** Pushing to the buffer and waking the link keeps the wire in order. */
  lemma PushedWireOk(s: Session, s': Session, ns: seq<Notification>)
    requires WireOk(s) && Primed(s) && s'.wire == Wake(PushNotes(s.wire, ns))
             && s'.out.sent == s.out.sent + Forwards(ns)
    ensures WireOk(s') && Primed(s')
  {
    hide Wake, SeenOk, Forwards;
    var w, w' := s.wire, s'.wire;
    ForwardsJoin(w.all, ns);
    WakeLeaves(PushNotes(w, ns));
    PushedSeen(w, ns);
    PushedBuffer(w, ns);
  }

  lemma PushedBuffer(w: Wire, ns: seq<Notification>)
    requires w.taken <= |w.all| && w.buffer == w.all[w.taken..]
    ensures var w' := PushNotes(w, ns);
            && w'.buffer == w'.all[w'.taken..]
            && (Unschedule in w'.buffer <==> Unschedule in w.buffer || Unschedule in ns)
            && (w.buffer != [] ==> w'.buffer[0] == w.buffer[0])
  {
  }

  /** The wake-up that goes with what is pushed has not been taken yet. */
  lemma PushedSeen(w: Wire, ns: seq<Notification>)
    requires SeenOk(w)
    ensures SeenOk(Wake(PushNotes(w, ns)))
  {
  }

  lemma NoUnscheduleInAcks(acks: seq<Ack>)
    ensures Unschedule !in AckNotes(acks)
  {
  }

  lemma AcksInBuffer(s: Session)
    requires WireOk(s) && s.committed != []
    ensures var w' := AckDeviceData(s).wire;
            && w'.taken <= |w'.all| && w'.buffer == w'.all[w'.taken..] && Forwards(w'.all) == s.out.sent
  {
    hide Wake;
    NoForwardsInAcks(s.committed);
    ForwardsJoin(s.wire.all, AckNotes(s.committed));
    var w := PushNotes(s.wire, AckNotes(s.committed));
    assert w.buffer == w.all[w.taken..];
    WakeLeaves(w);
  }

  lemma WakeLeaves(w: Wire)
    ensures Wake(w).buffer == w.buffer && Wake(w).all == w.all && Wake(w).taken == w.taken && Wake(w).link == w.link
    ensures Wake(w).seen == w.seen
    ensures Wake(w).wakes == w.wakes + 1 || Wake(w).wakes == w.wakes >= MAX_CHANNEL_CAPACITY
    ensures w.wakes <= Wake(w).wakes && Wake(w).wakes >= 1
  {
  }

  /** Sending the pending acknowledgements keeps the wire in order and primes it. */
  lemma AckedWireOk(s: Session)
    requires WireOk(s)
    ensures WireOk(AckDeviceData(s)) && Primed(AckDeviceData(s))
  {
    hide Forwards, AckNotes, Wake, SeenOk;
    if s.committed != [] {
      AcksInBuffer(s);
      PushedSeen(s.wire, AckNotes(s.committed));
      NoUnscheduleInAcks(s.committed);
      WakeLeaves(PushNotes(s.wire, AckNotes(s.committed)));
      FirstAck(s.committed);
    }
  }

  lemma FirstAck(acks: seq<Ack>)
    requires acks != []
    ensures AckNotes(acks) != [] && AckNotes(acks)[0] == DeviceAck(acks[0])
  {
  }

  // ---------------------------------------------------------------- forwarding

  /** What forwarding for one request does to its session. */
  ghost predicate SessionOn(logs: seq<Data>, s: Session, s': Session) {
    && OutOk(logs, s'.out) && WireOk(s') && Primed(s')
    && s' == s.(out := s'.out, wire := s'.wire)
    && (|s.out.inflight| == MAX_INFLIGHT ==> |s'.out.inflight| == MAX_INFLIGHT)
    && (Unschedule in s.wire.buffer ==> Unschedule in s'.wire.buffer) && s'.wire.link == s.wire.link
  }

  /** What it does to the request. */
  ghost predicate RequestOn(logs: seq<Data>, s': Session, r: DataRequest, r': DataRequest) {
    && r'.filter == r.filter && r'.filterIdx == r.filterIdx
    && TokenOf(logs, s', r')
  }

  /** What its answer means. */
  ghost predicate StatusMeans(logs: seq<Data>, s': Session, r': DataRequest, status: ConsumeStatus) {
    match status
    case FilterCaughtup => r'.filterIdx < |logs| && r'.cursor.1 == |logs[r'.filterIdx].hist|
    case BufferFull => Unschedule in s'.wire.buffer
    case WindowFull => |s'.out.inflight| == MAX_INFLIGHT
    case PartialRead => true
  }

  ghost predicate OthersUntouched(logs: seq<Data>, s: Session, f: FilterIdx, s': Session) {
    forall q :: TokenOf(logs, s, q) && q.filterIdx != f ==> TokenOf(logs, s', q)
  }

  /** What is selected are messages that the filter may be given, one for each topic. */
  lemma SelectedMay(retained: seq<(Text, Publish)>, accepted: seq<Publish>, filter: Text, r: seq<Publish>)
    requires RetainedOk(retained, accepted) && Selects(retained, filter, r)
    ensures forall k :: 0 <= k < |r| ==> MayBeGiven(r[k], filter)
    ensures forall i, j :: 0 <= i < j < |r| ==> r[i].topic != r[j].topic
  {
    hide Matches;
    var places :| SelectedAt(retained, filter, r, places);
    forall k | 0 <= k < |r| ensures MayBeGiven(r[k], filter) && r[k].topic == retained[places[k]].0 {
      var e := retained[places[k]];
      assert e in retained && LastRetained(accepted, e.0, e.1);
      assert places[k] in places;
    }
  }

  /** What a request is owed are retained messages that it may be given, one for each topic. */
  lemma OwedMay(store: Store, r: DataRequest, slots: nat)
    requires RetainedOk(store.retained, store.accepted)
    ensures var owed := OwedRetained(store, r, slots);
            && (forall k :: 0 <= k < |owed| ==> MayBeGiven(owed[k], r.filter))
            && (forall i, j :: 0 <= i < j < |owed| ==> owed[i].topic != owed[j].topic)
            && (owed != [] ==> r.forwardRetained)
  {
    hide MayBeGiven, RetainedOk, Selects, RetainedFor;
    RetainedForSelects(store.retained, r.filter);
    SelectedMay(store.retained, store.accepted, r.filter, RetainedFor(store.retained, r.filter));
  }

  lemma OwedOffered(store: Store, r: DataRequest, slots: nat, items: seq<Entry>)
    requires RetainedOk(store.retained, store.accepted)
    ensures var owed := OwedRetained(store, r, slots);
            var fs := RetainedForwards(owed, r.filterIdx, r.qos) + LogForwards(items, r.filterIdx, r.qos);
            Offered(fs, |owed|, r.filter, r.qos) && (|owed| > 0 ==> r.forwardRetained)
  {
    hide OwedRetained, RetainedOk, Matches;
    OwedMay(store, r, slots);
    var owed := OwedRetained(store, r, slots);
    var fs := RetainedForwards(owed, r.filterIdx, r.qos) + LogForwards(items, r.filterIdx, r.qos);
    forall k | 0 <= k < |fs| ensures fs[k].publish.qos == r.qos {
      assert k >= |owed| ==> fs[k] == LogForwards(items, r.filterIdx, r.qos)[k - |owed|];
    }
    forall k | 0 <= k < |owed| ensures MayBeGiven(fs[k].publish, r.filter) {
      assert MayBeGiven(owed[k], r.filter);
    }
  }

  lemma OwedCarries(store: Store, r: DataRequest, slots: nat, items: seq<Entry>)
    ensures var owed := OwedRetained(store, r, slots);
            var fs := RetainedForwards(owed, r.filterIdx, r.qos) + LogForwards(items, r.filterIdx, r.qos);
            |owed| <= slots && Carries(fs, |owed|, items, r.filterIdx)
  {
    var owed := OwedRetained(store, r, slots);
    var fs := RetainedForwards(owed, r.filterIdx, r.qos) + LogForwards(items, r.filterIdx, r.qos);
    forall k | |owed| <= k < |fs| ensures CarriesItem(fs[k], items[k - |owed|], r.filterIdx) {
      assert fs[k] == LogForwards(items, r.filterIdx, r.qos)[k - |owed|];
    }
  }

  lemma PushedOutOk(logs: seq<Data>, s: Session, r: DataRequest, end: Cursor, items: seq<Entry>, ps: seq<Forward>,
                    n: nat)
    requires r.filterIdx < |logs| && OutOk(logs, s.out)
    requires Carries(ps, n, items, r.filterIdx) && GoodRead(logs[r.filterIdx], r.cursor, end, items)
    requires Below(s.out.inflight, r.filterIdx, r.cursor.1) && Passed(s.out.ledger, r.filterIdx, r.cursor.1)
    requires !r.qos.AtMostOnce? ==> |ps| <= FreeSlots(s.out)
    requires Offered(ps, n, logs[r.filterIdx].filter, r.qos)
    ensures OutOk(logs, PushForwards(Noted(s, MissedBy(r, logs[r.filterIdx].log)).out, ps, r.qos).0)
  {
    hide Carries, GoodRead, Window, Ordered, InflightOk, SentOk, Below, Passed, MissedBy, LedgerOk, LedgerIn, Offered,
         EnteredOk;
    var f, c, gone := r.filterIdx, r.cursor, MissedBy(r, logs[r.filterIdx].log);
    var noted := Noted(s, gone).out;
    var (out', fs) := PushForwards(noted, ps, r.qos);
    PushForwardsIs(s, ps, r.qos, n, items, f, gone, logs[f].filter);
    assert Window(noted) && EnteredOk(noted) by { NotedWindow(s, gone); }
    PushKeepsWindow(noted, ps, r.qos);
    OfferedWith(ps, n, logs[f].filter, r.qos);
    PushKeepsEntered(noted, ps, r.qos);
    PushedOrdered(logs[f], c, end, items, s.out, out', fs, r.qos, gone, n, f);
    PushedEntries(logs, c, end, items, s.out, out', fs, r.qos, gone, n, f);
    PushedLedger(logs[f], c, end, items, s.out, out', fs, r.qos, gone, n, f);
    MissedIn(logs, s.out.ledger, r);
  }

  lemma OfferedWith(fs: seq<Forward>, n: nat, filter: Text, qos: QoS)
    requires Offered(fs, n, filter, qos)
    ensures AllWith(fs, qos)
  {
  }

  lemma NotedWindow(s: Session, gone: set<(FilterIdx, nat)>)
    requires Window(s.out) && EnteredOk(s.out)
    ensures Window(Noted(s, gone).out) && EnteredOk(Noted(s, gone).out)
  {
    hide Entering;
    var out := Noted(s, gone).out;
    forall i | 0 <= i < |out.inflight| ensures out.inflight[i].pkid == PkidAt(out, i) {
      assert s.out.inflight[i].pkid == PkidAt(s.out, i);
    }
  }

  /** What a read of a request gives is good, and fits. */
  ghost predicate GoodBatch(d: Data, r: DataRequest, r': DataRequest, ps: seq<Forward>, n: nat, items: seq<Entry>) {
    && r'.filter == r.filter && r'.filterIdx == r.filterIdx && r'.qos == r.qos && !r'.forwardRetained
    && Carries(ps, n, items, r.filterIdx)
    && Offered(ps, n, d.filter, r.qos) && (n > 0 ==> r.forwardRetained)
    && GoodRead(d, r.cursor, r'.cursor, items)
  }

  lemma ReadRequestIsGood(store: Store, r: DataRequest, slots: nat) returns (n: nat, items: seq<Entry>)
    requires r.filterIdx < |store.logs| && slots >= 1
    requires Holds(store.logs[r.filterIdx].log, store.logs[r.filterIdx].hist)
    requires ValidCursor(store.logs[r.filterIdx].log, r.cursor)
    requires RetainedOk(store.retained, store.accepted) && r.filter == store.logs[r.filterIdx].filter
    ensures var (pos, r', ps) := ReadRequest(r, store, slots);
            && GoodBatch(store.logs[r.filterIdx], r, r', ps, n, items)
            && |ps| <= slots
            && (pos.Done? || ps == [] ==> r'.cursor.1 == |store.logs[r.filterIdx].hist|)
  {
    hide Carries, GoodRead, Offered, RetainedOk;
    var owed := OwedRetained(store, r, slots);
    n := |owed|;
    items := ReadV(store.logs[r.filterIdx].log, r.cursor, slots - |owed|).1;
    OwedCarries(store, r, slots, items);
    OwedOffered(store, r, slots, items);
    ReadIsGood(store.logs[r.filterIdx], r.cursor, slots - |owed|);
  }

  lemma DeliveredWire(s: Session, ps: seq<Forward>, qos: QoS)
    requires WireOk(s) && Primed(s)
    ensures var (s', full) := Deliver(s, ps, qos);
            && WireOk(s') && Primed(s')
            && s' == s.(out := s'.out, wire := s'.wire)
            && (Unschedule in s.wire.buffer || full ==> Unschedule in s'.wire.buffer) && s'.wire.link == s.wire.link
  {
    hide WireOk, Primed;
    var (s', full) := Deliver(s, ps, qos);
    var (out, forwards) := PushForwards(s.out, ps, qos);
    var notes := ForwardNotes(forwards) + if full then [Unschedule] else [];
    ForwardsOfNotes(forwards);
    ForwardsThenUnschedule(forwards);
    assert ForwardNotes(forwards) + [] == ForwardNotes(forwards);
    PushedWireOk(s, s', notes);
    assert full ==> notes[|forwards|] == Unschedule;
  }

  lemma NotedWire(s: Session, gone: set<(FilterIdx, nat)>)
    requires WireOk(s)
    ensures WireOk(Noted(s, gone)) && (Primed(s) ==> Primed(Noted(s, gone)))
  {
  }

  lemma DeliveredSession(logs: seq<Data>, s: Session, r: DataRequest, r': DataRequest, ps: seq<Forward>, n: nat,
                         items: seq<Entry>)
    requires OutOk(logs, s.out) && WireOk(s) && Primed(s) && TokenOf(logs, s, r)
    requires GoodBatch(logs[r.filterIdx], r, r', ps, n, items)
    requires !r.qos.AtMostOnce? ==> |ps| <= FreeSlots(s.out)
    ensures SessionOn(logs, s, Deliver(Noted(s, MissedBy(r, logs[r.filterIdx].log)), ps, r.qos).0)
  {
    hide OutOk, WireOk, Primed, Carries, GoodRead, Delivered, Settled, Below, Passed, MissedBy, GivenOk, Offered;
    var noted := Noted(s, MissedBy(r, logs[r.filterIdx].log));
    NotedWire(s, MissedBy(r, logs[r.filterIdx].log));
    DeliveredWire(noted, ps, r.qos);
    PushedOutOk(logs, s, r, r'.cursor, items, ps, n);
    CarriedFits(noted.out, ps, r.qos);
  }

  lemma CarriedFits(out: Out, ps: seq<Forward>, qos: QoS)
    requires !qos.AtMostOnce? ==> |ps| <= FreeSlots(out)
    ensures |out.inflight| == MAX_INFLIGHT ==> |PushForwards(out, ps, qos).0.inflight| == MAX_INFLIGHT
  {
  }

  /** A read moves its own request on, and leaves those of other filters as they were. */
  lemma PushedTokens(logs: seq<Data>, s: Session, s': Session, r: DataRequest, r': DataRequest, fs: seq<Forward>,
                     n: nat, items: seq<Entry>)
    requires TokenOf(logs, s, r) && LedgerIn(logs, s.out.ledger) && s'.subs == s.subs && s'.origin == s.origin
    requires Pushed(s.out, s'.out, fs, r.qos, MissedBy(r, logs[r.filterIdx].log))
    requires GoodBatch(logs[r.filterIdx], r, r', fs, n, items)
    ensures RequestOn(logs, s', r, r') && OthersUntouched(logs, s, r.filterIdx, s')
  {
    hide TokenOk, GoodRead, Carries, Pushed, LedgerIn, MissedBy, Offered;
    CarriedBelongs(fs, n, items, r.filterIdx);
    ReaderReadsOn(logs, s, s', fs, n, items, r, r');
    forall q | TokenOf(logs, s, q) && q.filterIdx != r.filterIdx ensures TokenOf(logs, s', q) {
      OthersReadOn(logs, s, s', fs, r, q);
    }
  }

  lemma DeliveredTokens(logs: seq<Data>, s: Session, r: DataRequest, r': DataRequest, ps: seq<Forward>, n: nat,
                        items: seq<Entry>)
    requires TokenOf(logs, s, r) && LedgerIn(logs, s.out.ledger) && GoodBatch(logs[r.filterIdx], r, r', ps, n, items)
    ensures var s' := Deliver(Noted(s, MissedBy(r, logs[r.filterIdx].log)), ps, r.qos).0;
            RequestOn(logs, s', r, r') && OthersUntouched(logs, s, r.filterIdx, s')
  {
    hide TokenOk, GoodRead, Carries, LedgerIn, Pushed, MissedBy, OthersUntouched, RequestOn, Offered;
    var gone := MissedBy(r, logs[r.filterIdx].log);
    var s' := Deliver(Noted(s, gone), ps, r.qos).0;
    var fs := PushForwards(Noted(s, gone).out, ps, r.qos).1;
    PushForwardsIs(s, ps, r.qos, n, items, r.filterIdx, gone, logs[r.filterIdx].filter);
    PushedTokens(logs, s, s', r, r', fs, n, items);
  }

  /** Nothing to forward: only the cursor moves, to the end of the log. */
  lemma NothingReadOn(logs: seq<Data>, s: Session, r: DataRequest, r': DataRequest, n: nat, items: seq<Entry>)
    requires OutOk(logs, s.out) && WireOk(s) && Primed(s)
    requires TokenOf(logs, s, r) && GoodBatch(logs[r.filterIdx], r, r', [], n, items)
    ensures var s' := Noted(s, MissedBy(r, logs[r.filterIdx].log));
            SessionOn(logs, s, s') && RequestOn(logs, s', r, r') && OthersUntouched(logs, s, r.filterIdx, s')
  {
    hide TokenOk, GoodRead, WireOk, Primed, Window, Ordered, InflightOk, SentOk, LedgerIn, MissedBy, OthersUntouched,
         RequestOn, EnteredOk, Offered;
    var gone := MissedBy(r, logs[r.filterIdx].log);
    var s' := Noted(s, gone);
    NotedWire(s, gone);
    NotedWindow(s, gone);
    MissedIn(logs, s.out.ledger, r);
    assert items == [];
    assert s.out.sent + [] == s.out.sent && s.out.inflight + [] == s.out.inflight;
    assert Pushed(s.out, s'.out, [], r.qos, gone);
    PushedTokens(logs, s, s', r, r', [], n, items);
  }

  /** Forwarding for one request: the window and the wire stay in order, the request moves on by what
      it was given, the requests of other filters are untouched, and the answer means what it says. */
  lemma ForwardKeeps(store: Store, s: Session, r: DataRequest, cfg: Config)
    requires OutOk(store.logs, s.out) && WireOk(s) && Primed(s) && TokenOf(store.logs, s, r)
    requires Holds(store.logs[r.filterIdx].log, store.logs[r.filterIdx].hist)
    requires cfg.maxOutgoing >= 1 && RetainedOk(store.retained, store.accepted)
    ensures var (s', r', status) := ForwardData(s, r, store, cfg);
            && SessionOn(store.logs, s, s')
            && RequestOn(store.logs, s', r, r')
            && StatusMeans(store.logs, s', r', status)
            && OthersUntouched(store.logs, s, r.filterIdx, s')
  {
    hide WireOk, Primed, GoodBatch, ReadsOk, InflightOk, SentOk, ReadRequest, Deliver, ValidCursor, LedgerOk, LedgerIn,
         Noted, MissedBy, EnteredOk, RetainedOk;
    var slots := Slots(s, r, cfg);
    if r.qos.AtMostOnce? || slots != 0 {
      var n, items := ReadRequestIsGood(store, r, slots);
      var (pos, r', ps) := ReadRequest(r, store, slots);
      if ps == [] {
        NothingReadOn(store.logs, s, r, r', n, items);
      } else {
        DeliveredSession(store.logs, s, r, r', ps, n, items);
        DeliveredTokens(store.logs, s, r, r', ps, n, items);
        DeliveredFull(s, MissedBy(r, store.logs[r.filterIdx].log), ps, r.qos);
      }
      SameFilter(store.logs[r.filterIdx], r, r', ps, n, items);
    }
  }

  lemma DeliveredFull(s: Session, gone: set<(FilterIdx, nat)>, ps: seq<Forward>, qos: QoS)
    requires WireOk(s) && Primed(s)
    ensures var (s', full) := Deliver(Noted(s, gone), ps, qos); full ==> Unschedule in s'.wire.buffer
  {
    hide WireOk, Primed;
    NotedWire(s, gone);
    DeliveredWire(Noted(s, gone), ps, qos);
  }

  lemma SameFilter(d: Data, r: DataRequest, r': DataRequest, ps: seq<Forward>, n: nat, items: seq<Entry>)
    requires GoodBatch(d, r, r', ps, n, items)
    ensures r'.filterIdx == r.filterIdx
  {
  }
}
