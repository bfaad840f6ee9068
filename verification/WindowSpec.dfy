/** The outgoing side of a connection as a value: the QoS 1/2 window, and the buffer shared with the
    link. */
module WindowSpec {
  import opened Basics
  import opened RouterTypes

  datatype Inflight = Inflight(pkid: nat, filterIdx: FilterIdx, cursor: Option<Cursor>)

  /** The packet id last given out; 100 is kept as 0. */
  type LastPkid = x: int | 0 <= x < MAX_INFLIGHT

  /** History of a session, over all its connections: the log positions acknowledged, those dropped from
      the window by an acknowledgement for another packet, those that were gone from their log when a
      read came to them, and every acknowledgement, with the entry that it took. */
  datatype Ledger = Ledger(
    acked: set<(FilterIdx, nat)>, lost: set<(FilterIdx, nat)>, missed: set<(FilterIdx, nat)>,
    taken: seq<(Inflight, PacketId)>)

  const NO_LEDGER: Ledger := Ledger({}, {}, {}, [])

  /** The window of a connection.  History: `sent` is every forward of this connection, and `from` how many
      acknowledgements the session had had when it started. */
  datatype Out = Out(
    inflight: seq<Inflight>, lastPkid: LastPkid, unackedPubrels: seq<PacketId>,
    sent: seq<Forward>, ledger: Ledger, from: nat)

  /** What a connection starts with. */
  function EmptyOut(unackedPubrels: seq<PacketId>, ledger: Ledger): Out {
    Out([], 0, unackedPubrels, [], ledger, |ledger.taken|)
  }

  function FreeSlots(out: Out): int { MAX_INFLIGHT - |out.inflight| }

  // ---------------------------------------------------------------- pushing

  function Numbered(fs: seq<Forward>, last: LastPkid): (r: seq<Forward>)
    ensures |r| == |fs|
    ensures forall k :: 0 <= k < |r| ==>
              r[k] == fs[k].(publish := fs[k].publish.(pkid := (last + k) % MAX_INFLIGHT + 1))
  {
    seq(|fs|, k requires 0 <= k < |fs| => fs[k].(publish := fs[k].publish.(pkid := (last + k) % MAX_INFLIGHT + 1)))
  }

  function Tickets(fs: seq<Forward>): (r: seq<Inflight>)
    ensures |r| == |fs|
    ensures forall k :: 0 <= k < |r| ==> r[k] == Inflight(fs[k].publish.pkid, fs[k].filterIdx, fs[k].cursor)
  {
    seq(|fs|, k requires 0 <= k < |fs| => Inflight(fs[k].publish.pkid, fs[k].filterIdx, fs[k].cursor))
  }

  /** QoS 0 forwards go out as they are; the others take the next packet ids and a place in the window. */
  function PushForwards(out: Out, fs: seq<Forward>, qos: QoS): (Out, seq<Forward>) {
    if qos.AtMostOnce? then
      (out.(sent := out.sent + fs), fs)
    else
      var numbered := Numbered(fs, out.lastPkid);
      (out.(inflight := out.inflight + Tickets(numbered),
            lastPkid := (out.lastPkid + |fs|) % MAX_INFLIGHT,
            sent := out.sent + numbered),
       numbered)
  }

  // ---------------------------------------------------------------- acknowledgements

  function LogPlace(e: Inflight): set<(FilterIdx, nat)> {
    if e.cursor.Some? then {(e.filterIdx, e.cursor.value.1)} else {}
  }

  function Entered(l: Ledger, e: Inflight, pkid: PacketId): Ledger {
    var l' := l.(taken := l.taken + [(e, pkid)]);
    if pkid == e.pkid then l'.(acked := l.acked + LogPlace(e)) else l'.(lost := l.lost + LogPlace(e))
  }

  /** An acknowledgement takes the oldest entry, whatever its packet id; the answer is whether it was
      for that entry. */
  function RegisterAck(out: Out, pkid: PacketId): (Out, bool) {
    if out.inflight == [] then (out, false)
    else
      var head := out.inflight[0];
      (out.(inflight := out.inflight[1..], ledger := Entered(out.ledger, head, pkid)), pkid == head.pkid)
  }

  function RegisterPubrec(out: Out, pkid: PacketId): Out {
    out.(unackedPubrels := out.unackedPubrels + [pkid])
  }

  function RegisterPubcomp(out: Out, pkid: PacketId): (Out, bool) {
    if out.unackedPubrels == [] then (out, false)
    else (out.(unackedPubrels := out.unackedPubrels[1..]), out.unackedPubrels[0] == pkid)
  }

  /** The cursor of the oldest entry of a filter that came from its log. */
  function Retransmission(inflight: seq<Inflight>, f: FilterIdx): Option<Cursor> {
    if inflight == [] then None
    else if inflight[0].filterIdx == f && inflight[0].cursor.Some? then inflight[0].cursor
    else Retransmission(inflight[1..], f)
  }

  // ---------------------------------------------------------------- the window

  /** The packet ids in the window run on cyclically through 1..=100, oldest first, up to the last one
      given out. */
  ghost predicate Window(out: Out) {
    && |out.inflight| <= MAX_INFLIGHT
    && forall i :: 0 <= i < |out.inflight| ==> out.inflight[i].pkid == PkidAt(out, i)
  }

  function PkidAt(out: Out, i: nat): int {
    (out.lastPkid + MAX_INFLIGHT - |out.inflight| + i) % MAX_INFLIGHT + 1
  }

  /** The places in the window do not move when `k` more ids are given out. */
  lemma PlacesStay(last: LastPkid, len: nat, k: nat, i: nat)
    requires len + k <= MAX_INFLIGHT
    ensures ((last + k) % MAX_INFLIGHT + MAX_INFLIGHT - (len + k) + i) % MAX_INFLIGHT
            == (last + MAX_INFLIGHT - len + i) % MAX_INFLIGHT
  {
    assert last + k < MAX_INFLIGHT ==> (last + k) % MAX_INFLIGHT == last + k;
    assert last + k >= MAX_INFLIGHT ==> (last + k) % MAX_INFLIGHT == last + k - MAX_INFLIGHT;
  }

  /** A place further on is one id later. */
  lemma PlaceOfNew(last: LastPkid, len: nat, i: nat)
    requires len <= i && len <= MAX_INFLIGHT
    ensures (last + MAX_INFLIGHT - len + i) % MAX_INFLIGHT == (last + (i - len)) % MAX_INFLIGHT
  {
    var x := last + (i - len);
    assert (x + MAX_INFLIGHT) % MAX_INFLIGHT == x % MAX_INFLIGHT;
  }

  lemma PushKeepsWindow(out: Out, fs: seq<Forward>, qos: QoS)
    requires Window(out) && (!qos.AtMostOnce? ==> |fs| <= FreeSlots(out))
    ensures Window(PushForwards(out, fs, qos).0)
  {
    hide LogPlace, Entered;
    if !qos.AtMostOnce? {
      var o := PushForwards(out, fs, qos).0;
      var n := |out.inflight|;
      forall i | 0 <= i < |o.inflight| ensures o.inflight[i].pkid == PkidAt(o, i) {
        PlacesStay(out.lastPkid, n, |fs|, i);
        if i < n {
          assert o.inflight[i] == out.inflight[i];
        } else {
          PlaceOfNew(out.lastPkid, n, i);
          assert o.inflight[i] == Tickets(Numbered(fs, out.lastPkid))[i - n];
        }
      }
    }
  }

  lemma AckKeepsWindow(out: Out, pkid: PacketId)
    requires Window(out)
    ensures Window(RegisterAck(out, pkid).0)
  {
    if out.inflight != [] {
      hide Entered;
      var o := RegisterAck(out, pkid).0;
      forall i | 0 <= i < |o.inflight| ensures o.inflight[i].pkid == PkidAt(o, i) {
        assert o.inflight[i] == out.inflight[i + 1];
      }
    }
  }

  /** In the window, packet ids are between 1 and 100, follow one another, and are all different. */
  lemma WindowPkids(out: Out, i: nat, j: nat)
    requires Window(out) && i < j < |out.inflight|
    ensures 1 <= out.inflight[i].pkid <= MAX_INFLIGHT
    ensures j == i + 1 ==> out.inflight[j].pkid == out.inflight[i].pkid % MAX_INFLIGHT + 1
    ensures out.inflight[i].pkid != out.inflight[j].pkid
  {
  }

  // ---------------------------------------------------------------- what enters the window

  /** The entries that forwards bring into the window: one for each whose QoS is not 0, with its packet id,
      its filter and its position in the log. */
  ghost function Entering(fs: seq<Forward>): seq<Inflight> {
    if fs == [] then []
    else
      var last := fs[|fs| - 1];
      Entering(fs[..|fs| - 1]) +
      if last.publish.qos.AtMostOnce? then [] else [Inflight(last.publish.pkid, last.filterIdx, last.cursor)]
  }

  ghost function EntriesOf(taken: seq<(Inflight, PacketId)>): (r: seq<Inflight>)
    ensures |r| == |taken|
    ensures forall k :: 0 <= k < |r| ==> r[k] == taken[k].0
  {
    seq(|taken|, k requires 0 <= k < |taken| => taken[k].0)
  }

  /** What a connection has been sent with a QoS above 0 has entered its window, in that order, and nothing
      else has; each entry is there still, or has been taken out by an acknowledgement. */
  ghost predicate EnteredOk(out: Out) {
    && out.from <= |out.ledger.taken|
    && Entering(out.sent) == EntriesOf(out.ledger.taken[out.from..]) + out.inflight
  }

  ghost predicate AllWith(fs: seq<Forward>, qos: QoS) {
    forall k :: 0 <= k < |fs| ==> fs[k].publish.qos == qos
  }

  lemma {:induction false} EnteringJoin(a: seq<Forward>, b: seq<Forward>)
    ensures Entering(a + b) == Entering(a) + Entering(b)
  {
    if b == [] {
      assert a + b == a;
    } else {
      EnteringJoin(a, b[..|b| - 1]);
      assert (a + b)[..|a + b| - 1] == a + b[..|b| - 1];
    }
  }

  lemma {:induction false} EnteringAll(fs: seq<Forward>, qos: QoS)
    requires AllWith(fs, qos)
    ensures Entering(fs) == if qos.AtMostOnce? then [] else Tickets(fs)
  {
    if fs != [] {
      var n := |fs| - 1;
      EnteringAll(fs[..n], qos);
      assert fs[n].publish.qos == qos;
      assert Tickets(fs) == Tickets(fs[..n]) + [Inflight(fs[n].publish.pkid, fs[n].filterIdx, fs[n].cursor)];
    }
  }

  /** The window grows by exactly the forwards of a QoS above 0. */
  lemma PushKeepsEntered(out: Out, fs: seq<Forward>, qos: QoS)
    requires EnteredOk(out) && AllWith(fs, qos)
    ensures EnteredOk(PushForwards(out, fs, qos).0)
  {
    hide Entering, Tickets, Numbered;
    var (out', gs) := PushForwards(out, fs, qos);
    assert AllWith(gs, qos) by {
      forall k | 0 <= k < |gs| ensures gs[k].publish.qos == qos {
        assert fs[k].publish.qos == qos;
      }
    }
    EnteringJoin(out.sent, gs);
    EnteringAll(gs, qos);
  }

  /** An acknowledgement moves the oldest entry to those that have been taken out. */
  lemma AckKeepsEntered(out: Out, pkid: PacketId)
    requires EnteredOk(out)
    ensures EnteredOk(RegisterAck(out, pkid).0)
  {
    hide Entering;
    if out.inflight != [] {
      var taken := out.ledger.taken;
      var o := RegisterAck(out, pkid).0;
      assert o.ledger.taken[out.from..] == taken[out.from..] + [(out.inflight[0], pkid)];
      assert EntriesOf(o.ledger.taken[out.from..]) == EntriesOf(taken[out.from..]) + [out.inflight[0]];
    }
  }

  // ---------------------------------------------------------------- positions in the window

  /** Log positions of one filter only go up in the window. */
  ghost predicate Ordered(inflight: seq<Inflight>) {
    forall i, j :: 0 <= i < j < |inflight| && inflight[i].filterIdx == inflight[j].filterIdx
                   && inflight[i].cursor.Some? && inflight[j].cursor.Some?
                   ==> inflight[i].cursor.value.1 < inflight[j].cursor.value.1
  }

  ghost predicate Below(inflight: seq<Inflight>, f: FilterIdx, bound: nat) {
    forall i :: 0 <= i < |inflight| && inflight[i].filterIdx == f && inflight[i].cursor.Some?
                ==> inflight[i].cursor.value.1 < bound
  }

  /** A log position of a filter is waiting for its acknowledgement. */
  ghost predicate Unacked(inflight: seq<Inflight>, f: FilterIdx, c: Cursor) {
    exists i :: 0 <= i < |inflight| && inflight[i].filterIdx == f && inflight[i].cursor == Some(c)
  }

  /** The retransmission cursor of a filter is its least unacknowledged position. */
  lemma {:induction false} RetransmissionIsLeast(inflight: seq<Inflight>, f: FilterIdx)
    requires Ordered(inflight)
    ensures var r := Retransmission(inflight, f);
            && (r.Some? ==> Unacked(inflight, f, r.value))
            && (forall i :: 0 <= i < |inflight| && inflight[i].filterIdx == f && inflight[i].cursor.Some? ==>
                  r.Some? && r.value.1 <= inflight[i].cursor.value.1)
  {
    if inflight != [] {
      var rest := inflight[1..];
      RetransmissionIsLeast(rest, f);
      assert forall i :: 0 < i < |inflight| ==> inflight[i] == rest[i - 1];
    }
  }

  // ---------------------------------------------------------------- the ledger

  /** The acknowledgement was for the entry that it took, or for one that came from no log. */
  predicate InTurn(t: (Inflight, PacketId)) { t.1 == t.0.pkid || t.0.cursor.None? }

  ghost predicate AllInTurn(taken: seq<(Inflight, PacketId)>) {
    forall k :: 0 <= k < |taken| ==> InTurn(taken[k])
  }

  /** The position was taken from the window by an acknowledgement that was for it, or was not. */
  ghost predicate TakenBy(taken: seq<(Inflight, PacketId)>, place: (FilterIdx, nat), right: bool) {
    exists k :: 0 <= k < |taken| && place in LogPlace(taken[k].0) && (taken[k].1 == taken[k].0.pkid <==> right)
  }

  /** Positions of a filter that have left the window come before all that are in it. */
  ghost predicate Before(places: set<(FilterIdx, nat)>, inflight: seq<Inflight>) {
    forall place, i ::
      place in places && 0 <= i < |inflight| && inflight[i].filterIdx == place.0 && inflight[i].cursor.Some?
      ==> place.1 < inflight[i].cursor.value.1
  }

  /** What has left the window was either acknowledged or lost, once and for all, and the ledger says
      by which acknowledgement. */
  ghost predicate LedgerOk(out: Out) {
    var l := out.ledger;
    && l.acked !! l.lost
    && Before(l.acked + l.lost, out.inflight)
    && (forall place :: place in l.acked <==> TakenBy(l.taken, place, true))
    && (forall place :: place in l.lost <==> TakenBy(l.taken, place, false))
  }

  lemma TakenOneMore(taken: seq<(Inflight, PacketId)>, e: Inflight, pkid: PacketId, place: (FilterIdx, nat),
                     right: bool)
    ensures TakenBy(taken + [(e, pkid)], place, right) <==>
            TakenBy(taken, place, right) || (place in LogPlace(e) && (pkid == e.pkid <==> right))
  {
    hide LogPlace;
    var more := taken + [(e, pkid)];
    if TakenBy(taken, place, right) {
      var k :| 0 <= k < |taken| && place in LogPlace(taken[k].0) && (taken[k].1 == taken[k].0.pkid <==> right);
      assert more[k] == taken[k];
    }
    if place in LogPlace(e) && (pkid == e.pkid <==> right) {
      assert more[|taken|] == (e, pkid);
    }
    if TakenBy(more, place, right) {
      var k :| 0 <= k < |more| && place in LogPlace(more[k].0) && (more[k].1 == more[k].0.pkid <==> right);
      assert k < |taken| ==> taken[k] == more[k];
    }
  }

  lemma AckBefore(out: Out, pkid: PacketId)
    requires Before(out.ledger.acked + out.ledger.lost, out.inflight) && Ordered(out.inflight) && out.inflight != []
    ensures var o := RegisterAck(out, pkid).0; Before(o.ledger.acked + o.ledger.lost, o.inflight)
  {
    var o := RegisterAck(out, pkid).0;
    forall place, i | place in o.ledger.acked + o.ledger.lost && 0 <= i < |o.inflight|
                      && o.inflight[i].filterIdx == place.0 && o.inflight[i].cursor.Some?
      ensures place.1 < o.inflight[i].cursor.value.1
    {
      assert o.inflight[i] == out.inflight[i + 1];
      assert place in out.ledger.acked + out.ledger.lost || place in LogPlace(out.inflight[0]);
    }
  }

  lemma AckKeepsLedger(out: Out, pkid: PacketId)
    requires LedgerOk(out) && Ordered(out.inflight)
    ensures LedgerOk(RegisterAck(out, pkid).0)
  {
    hide TakenBy, Ordered;
    if out.inflight != [] {
      AckBefore(out, pkid);
      var l, head := out.ledger, out.inflight[0];
      forall place | place in l.acked + l.lost ensures place !in LogPlace(head) {
        assert head.filterIdx == place.0 && head.cursor.Some? ==> place.1 < head.cursor.value.1;
      }
      var o := RegisterAck(out, pkid).0;
      forall place
        ensures place in o.ledger.acked <==> TakenBy(o.ledger.taken, place, true)
        ensures place in o.ledger.lost <==> TakenBy(o.ledger.taken, place, false)
      {
        TakenOneMore(l.taken, head, pkid, place, true);
        TakenOneMore(l.taken, head, pkid, place, false);
      }
    }
  }

  /** In the whole life of a session nothing is lost if and only if every acknowledgement that took an
      entry from the window was for that entry, or the entry came from no log. */
  lemma NothingLostIff(out: Out)
    requires LedgerOk(out)
    ensures out.ledger.lost == {} <==> AllInTurn(out.ledger.taken)
  {
    var l := out.ledger;
    if !AllInTurn(l.taken) {
      var k :| 0 <= k < |l.taken| && !InTurn(l.taken[k]);
      var e := l.taken[k].0;
      assert (e.filterIdx, e.cursor.value.1) in LogPlace(e);
      assert TakenBy(l.taken, (e.filterIdx, e.cursor.value.1), false);
    }
    if l.lost != {} {
      var place :| place in l.lost;
      var k :| 0 <= k < |l.taken| && place in LogPlace(l.taken[k].0) && l.taken[k].1 != l.taken[k].0.pkid;
      assert !InTurn(l.taken[k]);
    }
  }
}
