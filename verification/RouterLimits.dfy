/** Where the strong claims end: what the router does outside the assumptions made elsewhere. */
module RouterLimits {
  import opened Basics
  import opened RouterTypes
  import opened StoreSpec
  import opened WindowSpec
  import opened RouterSpec
  import opened RouterInv
  import opened RouterSchedule
  import opened RouterUnsubscribe
  import opened RouterSessions
  import opened RouterConsume
  import opened RouterOnward
  import opened RouterRun
  import opened RouterWakeUps
  import opened DeviceSpec

  // ---------------------------------------------------------------- unsubscribing after a publish

  lemma HandedCounts(st: State, id: ConnectionId, f: Text)
    requires st.notes != [] && st.notes[0].0 in st.sess && id in st.sess
    ensures var next := HandBack(st);
            && id in next.sess && next.sess.Keys == st.sess.Keys && next.notes == st.notes[1..]
               && next.panicked == st.panicked
            && next.sess[id].subs == st.sess[id].subs
            && CountReqs(next.sess[id].reqs, f) + CountWaits(next.notes, id, f)
               == CountReqs(st.sess[id].reqs, f) + CountWaits(st.notes, id, f)
  {
    hide Drain;
    HandBackIs(st);
    CountWaitsFirst(st.notes, id, f);
    var (i, r) := st.notes[0];
    CountReqsJoin(st.sess[id].reqs, [r], f);
    assert [r][..0] == [];
  }

  ghost predicate AllLive(sess: map<ConnectionId, Session>, notes: seq<Waiter>) {
    forall k :: 0 <= k < |notes| ==> notes[k].0 in sess
  }

  lemma {:induction false} DrainedCounts(st: State, id: ConnectionId, f: Text)
    requires AllLive(st.sess, st.notes) && id in st.sess && !st.panicked
    ensures id in Drain(st).sess && Drain(st).sess[id].subs == st.sess[id].subs
    ensures CountReqs(Drain(st).sess[id].reqs, f) == CountReqs(st.sess[id].reqs, f) + CountWaits(st.notes, id, f)
    decreases |st.notes|
  {
    hide HandBack, CountReqs;
    if st.notes != [] {
      var next := HandBack(st);
      HandedCounts(st, id, f);
      assert AllLive(next.sess, next.notes) by {
        forall k | 0 <= k < |next.notes| ensures next.notes[k].0 in next.sess {
          assert st.notes[k + 1].0 in st.sess;
        }
      }
      DrainedCounts(next, id, f);
      DrainStep(st);
    }
  }

  lemma DrainStep(st: State)
    requires st.notes != [] && st.notes[0].0 in st.sess
    ensures Drain(st) == if Track(st.(notes := st.notes[1..]), st.notes[0].0, st.notes[0].1).panicked
                         then Track(st.(notes := st.notes[1..]), st.notes[0].0, st.notes[0].1) else Drain(HandBack(st))
  {
  }

  lemma NotesAreLive(st: State)
    requires Core(st)
    ensures AllLive(st.sess, st.notes) && !st.panicked && IndexOk(st.store)
  {
    hide StoreOk, SessionsOk, WaitersOk, CountsOk, ReadyOk, GraveOk, OriginsOk, TokenOf;
    forall k | 0 <= k < |st.notes| ensures st.notes[k].0 in st.sess {
      assert NoteOk(st.store.logs, st.sess, st.notes[k]);
    }
    CoreHasIndex(st);
  }

  /** An Unsubscribe in the middle of a batch takes back the subscription, but of its request only what
      is not among the woken ones: those come back when the batch ends, without a subscription.  So the
      request is gone exactly if no publish of the same batch has woken it. */
  lemma UnsubscribeLeavesWoken(st: State, id: ConnectionId, pkid: PacketId, f: Text)
    requires Core(st) && id in st.sess && f in st.sess[id].subs && f in st.subMap && id in st.subMap[f]
    ensures var st' := Drain(UnsubscribeOne(st, id, pkid, f).0);
            && id in st'.sess && f !in st'.sess[id].subs
            && CountReqs(st'.sess[id].reqs, f) == CountWaits(st.notes, id, f)
  {
    hide Core, CountReqs, CountWaits, Drain, RemoveWaiterOf;
    NotesAreLive(st);
    var next := UnsubscribeOne(st, id, pkid, f).0;
    assert next.notes == st.notes && next.sess == st.sess[id := Unsubscribed(st.sess[id], pkid, f)];
    WithoutCount(st.sess[id].reqs, f, f);
    DrainedCounts(next, id, f);
  }

  // ---------------------------------------------------------------- blocking with work to do

  /** A poll answers that there is nothing to do: the router then waits for an event. */
  ghost predicate PollsNothing(st: State) {
    st.ready == [] || st.ready[0] !in st.sess
  }

  ghost predicate SomebodyReady(st: State) {
    exists id :: id in st.sess && st.sess[id].status.Ready?
  }

  /** The state after the router has waited `n` times. */
  function Discarded(st: State, n: nat): State
    decreases n
  {
    if n == 0 || st.ready == [] then st else Discarded(st.(ready := st.ready[1..]), n - 1)
  }

  /** After it has waited at most `limit` times, the router goes on. */
  ghost predicate GoesOnWithin(st: State, limit: nat) {
    exists n: nat :: n <= limit && !PollsNothing(Discarded(st, n)) && Discarded(st, n).sess == st.sess
  }

  /** Each time the router waits takes one entry out of the queue, so it waits no more often than there are
      entries before that of a connection that is there. */
  lemma {:induction false} WaitsAtMost(st: State, id: ConnectionId, k: nat)
    requires id in st.sess && k < |st.ready| && st.ready[k] == id
    ensures GoesOnWithin(st, k)
    decreases k
  {
    if PollsNothing(st) {
      var next := st.(ready := st.ready[1..]);
      WaitsAtMost(next, id, k - 1);
      var n: nat :| n <= k - 1 && !PollsNothing(Discarded(next, n)) && Discarded(next, n).sess == next.sess;
      assert Discarded(st, n + 1) == Discarded(next, n);
    } else {
      assert Discarded(st, 0) == st;
    }
  }

  /** The router waits although a connection is ready, exactly when the first in its queue is gone; it then
      takes that one out, and waits no more often than there are others before the connection. */
  lemma WaitsWithWorkIff(st: State, id: ConnectionId)
    requires Good(st) && id in st.sess && st.sess[id].status.Ready?
    ensures PollsNothing(st) <==> st.ready != [] && st.ready[0] !in st.sess
    ensures PollsNothing(st) ==> Consume(st) == Discarded(st, 1)
    ensures st.ready != [] && GoesOnWithin(st, |st.ready| - 1)
  {
    hide Core, InboxOk, ConsumeLoop, AckDeviceData, GoesOnWithin;
    QueuedAt(st, id);
    var k :| 0 <= k < |st.ready| && st.ready[k] == id;
    WaitsAtMost(st, id, k);
    WithinMore(st, k, |st.ready| - 1);
    assert Discarded(st.(ready := st.ready[1..]), 0) == st.(ready := st.ready[1..]);
  }

  lemma WithinMore(st: State, m: nat, n: nat)
    requires GoesOnWithin(st, m) && m <= n
    ensures GoesOnWithin(st, n)
  {
  }

  // ---------------------------------------------------------------- completing and releasing out of turn

  function WithoutPkid(pkids: seq<PacketId>, pkid: PacketId): seq<PacketId> {
    if pkids == [] then [] else if pkids[0] == pkid then pkids[1..] else [pkids[0]] + WithoutPkid(pkids[1..], pkid)
  }

  /** A PUBCOMP completes the oldest release, whatever its packet id: so it completes just its own exactly if
      that is the oldest, or there is none. */
  lemma CompletesItsOwnIff(out: Out, pkid: PacketId)
    ensures RegisterPubcomp(out, pkid).0.unackedPubrels == WithoutPkid(out.unackedPubrels, pkid) <==>
            out.unackedPubrels == [] || out.unackedPubrels[0] == pkid
  {
    var q := out.unackedPubrels;
    if q != [] && q[0] != pkid && q[1..] == WithoutPkid(q, pkid) {
      NeverTheRest(q, pkid);
    }
  }

  lemma {:induction false} NeverTheRest(q: seq<PacketId>, pkid: PacketId)
    requires q != [] && q[0] != pkid
    ensures WithoutPkid(q, pkid) != q[1..]
  {
    if WithoutPkid(q, pkid) == q[1..] {
      var rest := q[1..];
      assert WithoutPkid(q, pkid) == [q[0]] + WithoutPkid(rest, pkid);
      if rest != [] {
        assert rest[0] == q[0] && rest[1..] == WithoutPkid(rest, pkid);
        NeverTheRest(rest, pkid);
      }
    }
  }

  /** After PUBREC 1 and PUBREC 2, a PUBCOMP for 2 leaves 2 to be completed. */
  lemma CompletionOutOfTurn()
    ensures RegisterPubcomp(EmptyOut([1, 2], NO_LEDGER), 2) == (EmptyOut([2], NO_LEDGER), false)
  {
    assert [1, 2][1..] == [2];
  }

  /** The publish that is recorded under a packet id, the oldest if there are several. */
  function RecordedUnder(recorded: seq<Publish>, pkid: PacketId): Option<Publish> {
    if recorded == [] then None
    else if recorded[0].pkid == pkid then Some(recorded[0]) else RecordedUnder(recorded[1..], pkid)
  }

  lemma {:induction false} UnderItsPkid(recorded: seq<Publish>, pkid: PacketId)
    ensures RecordedUnder(recorded, pkid).Some? ==> RecordedUnder(recorded, pkid).value.pkid == pkid
  {
    if recorded != [] {
      UnderItsPkid(recorded[1..], pkid);
    }
  }

  /** A PUBREL releases the oldest recorded publish, whatever its packet id: so it releases the one recorded
      under that exactly if it is the oldest. */
  lemma ReleasesItsOwnIff(d: Desk, pkid: PacketId)
    requires d.recorded != []
    ensures RecordedUnder(d.recorded, pkid) == Some(Accepts(d, PubRelPacket(pkid, true))[0]) <==>
            d.recorded[0].pkid == pkid
  {
    UnderItsPkid(d.recorded, pkid);
  }
}
