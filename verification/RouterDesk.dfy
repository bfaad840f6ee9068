/** What events do to the devices of all connections. */
module RouterDesk {
  import opened Basics
  import opened RouterTypes
  import opened StoreSpec
  import opened WindowSpec
  import opened RouterSpec
  import opened RouterInv
  import opened RouterSchedule
  import opened RouterSessions
  import opened RouterBatch
  import opened DeviceSpec
  import opened RouterDevice

  // ---------------------------------------------------------------- handing requests back

  ghost predicate AllUndisturbed(sess: map<ConnectionId, Session>, sess': map<ConnectionId, Session>) {
    sess'.Keys == sess.Keys && forall i :: i in sess ==> Undisturbed(sess[i], sess'[i])
  }

  /** Nothing else of the router is another, but for its queue and the notifications. */
  ghost predicate OnlyScheduled(st: State, st': State) {
    && AllUndisturbed(st.sess, st'.sess)
    && st' == st.(sess := st'.sess, ready := st'.ready, notes := st'.notes, panicked := st'.panicked)
  }

  lemma OnlyScheduledOn(a: State, b: State, c: State)
    requires OnlyScheduled(a, b) && OnlyScheduled(b, c)
    ensures OnlyScheduled(a, c)
  {
    hide InRange;
    forall i | i in a.sess ensures Undisturbed(a.sess[i], c.sess[i]) {
      assert Undisturbed(a.sess[i], b.sess[i]) && Undisturbed(b.sess[i], c.sess[i]);
    }
  }

  lemma TrackOnlySchedules(st: State, id: ConnectionId, r: DataRequest)
    requires st.notes != []
    ensures OnlyScheduled(st, Track(st.(notes := st.notes[1..]), id, r))
  {
    hide InRange;
  }

  lemma FreshDataOnlySchedules(st: State, id: ConnectionId)
    ensures OnlyScheduled(st, Reschedule(st, id, FreshData))
  {
    hide InRange, Reschedule;
    if id in st.sess {
      RescheduleIs(st, id, FreshData);
    } else {
      GoneOnlyPanics(st, id, FreshData);
    }
  }

  lemma GoneOnlyPanics(st: State, id: ConnectionId, reason: ScheduleReason)
    requires id !in st.sess
    ensures Reschedule(st, id, reason) == st.(panicked := true)
  {
  }

  lemma {:induction false} DrainOnlySchedules(st: State)
    ensures OnlyScheduled(st, Drain(st))
    decreases |st.notes|
  {
    hide Track, Reschedule, OnlyScheduled, InRange;
    if st.notes != [] {
      var (id, r) := st.notes[0];
      var tracked := Track(st.(notes := st.notes[1..]), id, r);
      TrackOnlySchedules(st, id, r);
      if !tracked.panicked {
        var next := Reschedule(tracked, id, FreshData);
        TrackClients(st.(notes := st.notes[1..]), id, r);
        RescheduleNotes(tracked, id, FreshData);
        FreshDataOnlySchedules(tracked, id);
        DrainOnlySchedules(next);
        OnlyScheduledOn(st, tracked, next);
        OnlyScheduledOn(st, next, Drain(next));
      }
    } else {
      NothingScheduled(st);
    }
  }

  lemma NothingScheduled(st: State)
    ensures OnlyScheduled(st, st)
  {
    hide InRange;
  }

  lemma ScheduledServed(st: State, st': State, id: ConnectionId)
    requires OnlyScheduled(st, st') && id in st.sess
    ensures Served(st, st', id, [], [], DeskOf(st, id))
  {
    hide InRange, Known, Pkids;
    SameKnown(st.subMap, id);
    assert Undisturbed(st.sess[id], st'.sess[id]);
    assert st.store.accepted + [] == st.store.accepted;
    assert st.sess[id].committed + [] == st.sess[id].committed;
  }

  // ---------------------------------------------------------------- the end of a batch

  /** What follows the packets, short of dropping the connection. */
  function Woken(b: Batch, id: ConnectionId): State {
    var acked := if b.forceAck then Reschedule(b.st, id, FreshData) else b.st;
    if b.newData then Drain(acked) else acked
  }

  lemma FinishIs(b: Batch, id: ConnectionId)
    requires !b.st.panicked
    ensures FinishBatch(b, id) == if b.disconnect then HandleDisconnection(Woken(b, id), id) else Woken(b, id)
  {
    hide Reschedule, Drain, HandleDisconnection;
  }

  /** If an acknowledgement was to be made, the connection does not stay at rest. */
  lemma WokenSchedules(b: Batch, id: ConnectionId)
    requires id in b.st.sess
    ensures OnlyScheduled(b.st, Woken(b, id)) && id in Woken(b, id).sess
    ensures IsCaughtup(Woken(b, id).sess[id].status) ==> IsCaughtup(b.st.sess[id].status) && !b.forceAck
    ensures Roused(b.st.sess[id].status, Woken(b, id).sess[id].status)
  {
    hide Reschedule, Drain, InRange, Undisturbed;
    NothingScheduled(b.st);
    RescheduleServed(b.st, id, FreshData);
    FreshDataOnlySchedules(b.st, id);
    var acked := if b.forceAck then Reschedule(b.st, id, FreshData) else b.st;
    assert IsCaughtup(acked.sess[id].status) ==> IsCaughtup(b.st.sess[id].status) && !b.forceAck;
    if b.newData {
      DrainOnlySchedules(acked);
      OnlyScheduledOn(b.st, acked, Drain(acked));
      StaysUndisturbed(acked.sess[id], Drain(acked).sess[id]);
    }
  }

  lemma StaysUndisturbed(s: Session, s': Session)
    requires Undisturbed(s, s')
    ensures Roused(s.status, s'.status)
  {
  }

  /** The connection is gone; a lasting session is saved with the releases that were not completed, and
      nothing is known of it any more. */
  ghost predicate Dropped(st: State, st': State, id: ConnectionId)
    requires id in st.sess
  {
    var s := st.sess[id];
    && st'.sess == st.sess - {id} && st'.byClient == st.byClient - {s.client}
    && st'.store.accepted == st.store.accepted && st'.wills == st.wills
    && OthersKnown(st.subMap, st'.subMap, id)
    && (MapOk(s.subs, st.subMap, id) ==> MapOk({}, st'.subMap, id))
    && (s.client in st'.grave <==> !s.clean)
    && (!s.clean ==>
          && st'.grave[s.client].subs == s.subs
          && st'.grave[s.client].unackedPubrels == s.out.unackedPubrels
          && st'.grave[s.client].ledger == s.out.ledger)
    && (forall c :: c != s.client ==>
          (c in st'.grave <==> c in st.grave) && (c in st.grave ==> st'.grave[c] == st.grave[c]))
  }

  lemma ForgetKnown(subMap: map<Text, set<ConnectionId>>, subs: set<Text>, id: ConnectionId)
    ensures OthersKnown(subMap, ForgetId(subMap, subs, id), id)
    ensures MapOk(subs, subMap, id) ==> MapOk({}, ForgetId(subMap, subs, id), id)
  {
  }

  lemma DisconnectionDrops(st: State, id: ConnectionId)
    requires id in st.sess
    ensures Dropped(st, HandleDisconnection(st, id), id)
  {
    hide InRange, CleanLogs, Rewind, Restarted, ForgetId, OthersKnown, MapOk;
    ForgetKnown(st.subMap, st.sess[id].subs, id);
  }

  // ---------------------------------------------------------------- a batch from a device

  /** A batch that does not make the router panic: the broker accepts exactly what the device may expect, up
      to the packet that ends the batch; the connection has been dropped exactly if a packet disconnects it,
      and if not it is committed to exactly the answers, and does not rest before it has sent them. */
  ghost predicate PayloadServed(st: State, st': State, id: ConnectionId, ps: seq<Packet>)
    requires id in st.sess
  {
    var d, s := DeskOf(st, id), st.sess[id];
    && st'.store.accepted == st.store.accepted + AcceptsAll(d, ps)
    && st'.wills == (if DisconnectPacket in Taken(d, ps) then st.wills - {s.client} else st.wills)
    && (id in st'.sess <==> !DisconnectsAny(d, ps))
    && st'.sess.Keys == (if DisconnectsAny(d, ps) then st.sess.Keys - {id} else st.sess.Keys)
    && (forall i :: i in st.sess && i != id ==> Undisturbed(st.sess[i], st'.sess[i]))
    && OthersKnown(st.subMap, st'.subMap, id)
    && if DisconnectsAny(d, ps) then LeftBehind(st, st', id, AfterAll(d, ps)) else
         && Answered(s, st'.sess[id], SaysAll(d, ps)) && RousedBy(s.status, st'.sess[id].status, ps)
         && DeskOf(st', id) == AfterAll(d, ps)
         && (MapOk(s.subs, st.subMap, id) ==> MapOk(st'.sess[id].subs, st'.subMap, id))
         && st'.grave == st.grave && st'.byClient == st.byClient
  }

  ghost predicate Answered(s: Session, s': Session, said: seq<Ack>) {
    && s'.committed == s.committed + said && s'.wire == s.wire
    && s'.client == s.client && s'.clean == s.clean
    && (IsCaughtup(s'.status) ==> IsCaughtup(s.status) && said == [])
  }

  /** What is left of a connection that has been dropped with this still to do. */
  ghost predicate LeftBehind(st: State, st': State, id: ConnectionId, after: Desk)
    requires id in st.sess
  {
    var s := st.sess[id];
    && st'.byClient == st.byClient - {s.client}
    && (MapOk(s.subs, st.subMap, id) ==> MapOk({}, st'.subMap, id))
    && (s.client in st'.grave <==> !s.clean)
    && (!s.clean ==> st'.grave[s.client].unackedPubrels == after.releases)
    && (forall c :: c != s.client ==>
          (c in st'.grave <==> c in st.grave) && (c in st.grave ==> st'.grave[c] == st.grave[c]))
  }

  lemma RousedMore(a: Status, b: Status, c: Status, ps: seq<Packet>)
    requires RousedBy(a, b, ps) && Roused(b, c)
    ensures RousedBy(a, c, ps)
  {
  }

  lemma WokenServed(st: State, b: Batch, id: ConnectionId, ps: seq<Packet>)
    requires id in st.sess && BatchIsServed(Begun(st), b, id, ps)
    ensures var d, woken := DeskOf(st, id), Woken(b, id);
            && Served(st, woken, id, AcceptsAll(d, ps), SaysAll(d, ps), AfterAll(d, ps))
            && woken.wills == b.st.wills && id in woken.sess && id in b.st.sess
            && (IsCaughtup(woken.sess[id].status) && !b.disconnect ==>
                  IsCaughtup(st.sess[id].status) && SaysAll(d, ps) == [])
            && RousedBy(st.sess[id].status, woken.sess[id].status, ps)
  {
    hide InRange, DeskOf, Served, Woken, AcceptsAll, SaysAll, AfterAll, EndsAny, DisconnectsAny, Taken, RousedBy;
    var d, woken := DeskOf(st, id), Woken(b, id);
    ServedHas(st, b.st, id, AcceptsAll(d, ps), SaysAll(d, ps), AfterAll(d, ps));
    WokenSchedules(b, id);
    RousedRests(st.sess[id].status, b.st.sess[id].status, ps);
    RousedMore(st.sess[id].status, b.st.sess[id].status, woken.sess[id].status, ps);
    ScheduledServed(b.st, woken, id);
    assert AcceptsAll(d, ps) + [] == AcceptsAll(d, ps) && SaysAll(d, ps) + [] == SaysAll(d, ps);
    ServedOn(st, b.st, woken, id, AcceptsAll(d, ps), [], SaysAll(d, ps), [], AfterAll(d, ps), AfterAll(d, ps),
             AcceptsAll(d, ps), SaysAll(d, ps));
  }

  lemma DroppedServed(st: State, woken: State, st': State, id: ConnectionId, accepted: seq<Publish>, said: seq<Ack>,
                      after: Desk)
    requires Served(st, woken, id, accepted, said, after) && Dropped(woken, st', id)
    ensures st'.store.accepted == st.store.accepted + accepted && st'.wills == woken.wills
    ensures st'.sess.Keys == st.sess.Keys - {id}
    ensures forall i :: i in st.sess && i != id ==> Undisturbed(st.sess[i], st'.sess[i])
    ensures OthersKnown(st.subMap, st'.subMap, id) && LeftBehind(st, st', id, after)
  {
    hide InRange, Known, MapOk, OthersKnown, Undisturbed, Pkids;
    OthersKnownOn(st.subMap, woken.subMap, st'.subMap, id);
  }

  lemma PayloadIsServed(st: State, id: ConnectionId, ps: seq<Packet>)
    requires id in st.sess && !st.panicked && !HandleDevicePayload(st, id, ps).panicked
    ensures PayloadServed(st, HandleDevicePayload(st, id, ps), id, ps)
  {
    hide InRange, OnPackets, DeskOf, Served, Woken, AcceptsAll, SaysAll, AfterAll, EndsAny, DisconnectsAny, Taken,
         HandleDisconnection, FinishBatch, RousedBy;
    var b, d := OnPackets(Begun(st), id, ps), DeskOf(st, id);
    var st' := FinishBatch(b, id);
    assert HandleDevicePayload(st, id, ps) == st';
    PanickedFinish(b, id);
    PacketsServed(Begun(st), id, ps);
    FinishIs(b, id);
    WokenServed(st, b, id, ps);
    if b.disconnect {
      DisconnectionDrops(Woken(b, id), id);
      DroppedServed(st, Woken(b, id), st', id, AcceptsAll(d, ps), SaysAll(d, ps), AfterAll(d, ps));
    } else {
      KeptServed(st, st', id, AcceptsAll(d, ps), SaysAll(d, ps), AfterAll(d, ps));
    }
  }

  lemma PanickedFinish(b: Batch, id: ConnectionId)
    ensures b.st.panicked ==> FinishBatch(b, id).panicked
  {
    hide Reschedule, Drain, HandleDisconnection;
  }

  lemma KeptServed(st: State, st': State, id: ConnectionId, accepted: seq<Publish>, said: seq<Ack>, after: Desk)
    requires Served(st, st', id, accepted, said, after)
    requires IsCaughtup(st'.sess[id].status) ==> IsCaughtup(st.sess[id].status) && said == []
    ensures st'.store.accepted == st.store.accepted + accepted && st'.sess.Keys == st.sess.Keys
    ensures forall i :: i in st.sess && i != id ==> Undisturbed(st.sess[i], st'.sess[i])
    ensures OthersKnown(st.subMap, st'.subMap, id) && Answered(st.sess[id], st'.sess[id], said)
    ensures MapOk(st.sess[id].subs, st.subMap, id) ==> MapOk(st'.sess[id].subs, st'.subMap, id)
    ensures DeskOf(st', id) == after && st'.grave == st.grave && st'.byClient == st.byClient
  {
    hide InRange, Known, MapOk, OthersKnown, Undisturbed, Pkids;
  }
}
