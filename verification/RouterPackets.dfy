/** Acknowledgements and publishes in a batch keep the invariant. */
module RouterPackets {
  import opened Basics
  import opened LogSpec
  import opened LogReader
  import opened RouterTypes
  import opened StoreSpec
  import opened WindowSpec
  import opened RouterSpec
  import opened RouterInv
  import opened RouterSchedule
  import opened RouterPublish

  lemma QueueSame(sess: map<ConnectionId, Session>, ready: seq<ConnectionId>, inbox: seq<(ConnectionId, Event)>,
                  id: ConnectionId, s': Session)
    requires ReadyOk(sess, ready, inbox) && id in sess
    requires s'.status == sess[id].status && s'.wire == sess[id].wire
    ensures ReadyOk(sess[id := s'], ready, inbox)
  {
    var sess' := sess[id := s'];
    forall i | i in sess' ensures QueuedOk(sess'[i], i, ready, inbox) {
      assert QueuedOk(sess[i], i, ready, inbox);
    }
  }

  // ---------------------------------------------------------------- acknowledgements to make

  /** Acknowledgements are only ever added behind the connection acknowledgement. */
  lemma CommittedKeepsCore(st: State, id: ConnectionId, acks: seq<Ack>, recorded: seq<Publish>)
    requires Core(st) && id in st.sess
    ensures Core(With(st, id, st.sess[id].(committed := st.sess[id].committed + acks, recorded := recorded)))
  {
    var s := st.sess[id];
    var s' := s.(committed := s.committed + acks, recorded := recorded);
    assert SessionOk(st.store.logs, s);
    QueueSame(st.sess, st.ready, st.inbox, id, s');
    SameReadingKeepsCore(st, id, s', st.ready);
  }

  // ---------------------------------------------------------------- acknowledgements received

  /** The window may change as long as it stays in order and every request keeps its account. */
  lemma OutReplacedKeepsCore(st: State, id: ConnectionId, s': Session)
    requires Core(st) && id in st.sess
    requires var s := st.sess[id];
             && s' == s.(out := s'.out, committed := s'.committed) && s'.out.sent == s.out.sent
             && s.committed <= s'.committed
    requires OutOk(st.store.logs, s'.out)
    requires forall r :: TokenOf(st.store.logs, st.sess[id], r) ==> TokenOf(st.store.logs, s', r)
    ensures Core(With(st, id, s'))
  {
    hide OutOk, TokenOf, StoreOk, WaiterOk, SavedOk, QueuedOk, OriginsOk;
    var s := st.sess[id];
    assert SessionOk(st.store.logs, s);
    QueueSame(st.sess, st.ready, st.inbox, id, s');
    SessionReplaced(st.store, st.sess, st.notes, id, s');
    forall f | f in s'.subs ensures CountOk(st.store, s', st.notes, id, f) {
      assert CountOk(st.store, s, st.notes, id, f);
    }
    CountsReplaced(st.store, st.sess, st.notes, id, s');
    SameOrigins(st, id, s');
  }

  lemma SameOrigins(st: State, id: ConnectionId, s': Session)
    requires OriginsOk(st.store, st.sess, st.grave) && id in st.sess && s'.origin == st.sess[id].origin
    ensures OriginsOk(st.store, st.sess[id := s'], st.grave)
  {
    OriginsWith(st.store, st.sess, st.grave, id, s');
  }

  lemma AckKeepsOut(logs: seq<Data>, out: Out, pkid: PacketId)
    requires OutOk(logs, out)
    ensures OutOk(logs, RegisterAck(out, pkid).0)
  {
    hide LedgerOk, Entered, LedgerIn, SentOk, InflightOk, EnteredOk;
    AckKeepsWindow(out, pkid);
    AckKeepsEntered(out, pkid);
    AckKeepsLedger(out, pkid);
    if out.inflight != [] {
      var rest := out.inflight[1..];
      forall i | 0 <= i < |rest| ensures InflightOk(logs, rest[i]) {
        assert InflightOk(logs, out.inflight[i + 1]);
      }
      EnteredIn(logs, out.ledger, out.inflight[0], pkid);
    }
  }

  lemma EnteredIn(logs: seq<Data>, l: Ledger, e: Inflight, pkid: PacketId)
    requires LedgerIn(logs, l) && InflightOk(logs, e)
    ensures LedgerIn(logs, Entered(l, e, pkid))
  {
    var l' := Entered(l, e, pkid);
    forall place | place in l'.acked + l'.lost ensures place.0 < |logs| && place.1 < |logs[place.0].hist| {
      assert place in l.acked + l.lost || place in LogPlace(e);
    }
  }

  /** A position taken out of the window is accounted for. */
  lemma AckKeepsAccount(out: Out, pkid: PacketId, f: FilterIdx, p: nat)
    requires Accounted(out, f, p)
    ensures Accounted(RegisterAck(out, pkid).0, f, p)
  {
    var o := RegisterAck(out, pkid).0;
    if out.inflight != [] && Waits(out.inflight, f, p) {
      var i :| 0 <= i < |out.inflight| && (f, p) in LogPlace(out.inflight[i]);
      if i > 0 {
        assert o.inflight[i - 1] == out.inflight[i];
      }
    }
  }

  lemma AckKeepsReads(o: Origin, out: Out, out': Out, pkid: PacketId, r: DataRequest)
    requires ReadsOk(o, out, r) && out' == RegisterAck(out, pkid).0.(unackedPubrels := out'.unackedPubrels)
    ensures ReadsOk(o, out', r)
  {
    hide Delivered, Accounted;
    if out.inflight != [] {
      forall place | place in out'.ledger.acked + out'.ledger.lost && place.0 == r.filterIdx
        ensures place.1 < r.cursor.1
      {
        assert place in out.ledger.acked + out.ledger.lost || place in LogPlace(out.inflight[0]);
      }
    }
    if !r.qos.AtMostOnce? {
      forall p: nat | o.first <= p < r.cursor.1 ensures Accounted(out', r.filterIdx, p) {
        AckKeepsAccount(out, pkid, r.filterIdx, p);
        SameAccount(RegisterAck(out, pkid).0, out'.unackedPubrels, r.filterIdx, p);
      }
    }
  }

  lemma SameAccount(out: Out, pubrels: seq<PacketId>, f: FilterIdx, p: nat)
    ensures Accounted(out.(unackedPubrels := pubrels), f, p) <==> Accounted(out, f, p)
  {
  }

  lemma AckKeepsToken(logs: seq<Data>, s: Session, pkid: PacketId, s': Session, r: DataRequest)
    requires TokenOf(logs, s, r) && s' == s.(out := s'.out, committed := s'.committed)
    requires s'.out == RegisterAck(s.out, pkid).0.(unackedPubrels := s'.out.unackedPubrels)
    ensures TokenOf(logs, s', r)
  {
    hide ReadsOk, RegisterAck;
    AckKeepsReads(s.origin[r.filter], s.out, s'.out, pkid, r);
  }

  lemma PubrelsKeepOut(logs: seq<Data>, out: Out, pubrels: seq<PacketId>)
    requires OutOk(logs, out)
    ensures OutOk(logs, out.(unackedPubrels := pubrels))
  {
    var o := out.(unackedPubrels := pubrels);
    forall i | 0 <= i < |o.inflight| ensures o.inflight[i].pkid == PkidAt(o, i) {
      assert out.inflight[i].pkid == PkidAt(out, i);
    }
  }

  /** The session after an acknowledgement of either kind. */
  function AckedSession(s: Session, pkid: PacketId, rec: bool): Session {
    var (out, ok) := RegisterAck(s.out, pkid);
    if ok && rec then s.(out := RegisterPubrec(out, pkid), committed := s.committed + [PubRel(pkid)])
    else s.(out := out)
  }

  lemma AckedReadsOn(logs: seq<Data>, s: Session, pkid: PacketId, rec: bool)
    requires OutOk(logs, s.out)
    ensures var s' := AckedSession(s, pkid, rec);
            && OutOk(logs, s'.out) && s'.out.sent == s.out.sent
            && forall r :: TokenOf(logs, s, r) ==> TokenOf(logs, s', r)
  {
    var s' := AckedSession(s, pkid, rec);
    AckKeepsOut(logs, s.out, pkid);
    PubrelsKeepOut(logs, RegisterAck(s.out, pkid).0, s'.out.unackedPubrels);
    forall r | TokenOf(logs, s, r) ensures TokenOf(logs, s', r) {
      AckKeepsToken(logs, s, pkid, s', r);
    }
  }

  lemma AckedKeepsCore(st: State, id: ConnectionId, pkid: PacketId, rec: bool)
    requires Core(st) && id in st.sess
    ensures Core(With(st, id, AckedSession(st.sess[id], pkid, rec)))
  {
    assert SessionOk(st.store.logs, st.sess[id]);
    AckedReadsOn(st.store.logs, st.sess[id], pkid, rec);
    OutReplacedKeepsCore(st, id, AckedSession(st.sess[id], pkid, rec));
  }

  lemma PubcompKeepsCore(st: State, id: ConnectionId, pkid: PacketId)
    requires Core(st) && id in st.sess
    ensures Core(With(st, id, st.sess[id].(out := RegisterPubcomp(st.sess[id].out, pkid).0)))
  {
    var s := st.sess[id];
    var s' := s.(out := RegisterPubcomp(s.out, pkid).0);
    assert SessionOk(st.store.logs, s);
    PubrelsKeepOut(st.store.logs, s.out, s'.out.unackedPubrels);
    forall r | TokenOf(st.store.logs, s, r) ensures TokenOf(st.store.logs, s', r) {
      PubrelsDontMatter(st.store.logs, s, s', r);
    }
    OutReplacedKeepsCore(st, id, s');
  }

  lemma PubrelsDontMatter(logs: seq<Data>, s: Session, s': Session, r: DataRequest)
    requires TokenOf(logs, s, r)
    requires s' == s.(out := s.out.(unackedPubrels := s'.out.unackedPubrels))
    ensures TokenOf(logs, s', r)
  {
    hide Delivered, Accounted;
    forall p: nat | s.origin[r.filter].first <= p < r.cursor.1 && Accounted(s.out, r.filterIdx, p)
      ensures Accounted(s'.out, r.filterIdx, p)
    {
      SameAccount(s.out, s'.out.unackedPubrels, r.filterIdx, p);
    }
  }
}
