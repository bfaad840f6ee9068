/** The outgoing side of a connection, in place: the window of unacknowledged publishes and the buffer
    shared with the link. */
module OutgoingBuffers {
  import opened Basics
  import opened RouterTypes
  import opened WindowSpec
  import opened RouterSpec

  class Outgoing {
    var dataBuffer: seq<Notification>
    var inflightBuffer: seq<Inflight>
    var unackedPubrels: seq<PacketId>
    var lastPkid: nat
    /** Wake-ups in the channel to the link. */
    var wakes: nat

    // History, and the link's own part of the wire.
    var sent: seq<Forward>
    var ledger: Ledger
    var all: seq<Notification>
    const from: nat
    const link: Link
    const taken: nat
    const seen: nat

    /** Borrows the entry of a connection. */
    constructor Of(out: Out, wire: Wire)
      ensures lastPkid < MAX_INFLIGHT && Window() == out && WireNow() == wire
    {
      dataBuffer, all, wakes, link, taken := wire.buffer, wire.all, wire.wakes, wire.link, wire.taken;
      seen := wire.seen;
      inflightBuffer, unackedPubrels, lastPkid := out.inflight, out.unackedPubrels, out.lastPkid;
      sent, ledger, from := out.sent, out.ledger, out.from;
    }

    function Window(): Out
      reads this
      requires lastPkid < MAX_INFLIGHT
    {
      Out(inflightBuffer, lastPkid, unackedPubrels, sent, ledger, from)
    }

    function WireNow(): Wire
      reads this
    {
      Wire(dataBuffer, wakes, link, all, taken, seen)
    }

    method PushNotification(notification: Notification) returns (len: nat)
      modifies this`dataBuffer, this`all
      ensures WireNow() == PushNotes(old(WireNow()), [notification]) && len == |dataBuffer|
    {
      dataBuffer, all := dataBuffer + [notification], all + [notification];
      len := |dataBuffer|;
    }

    method Push(p: Forward)
      modifies this`dataBuffer, this`all, this`sent
      ensures dataBuffer == old(dataBuffer) + [Forwarded(p)] && all == old(all) + [Forwarded(p)]
              && sent == old(sent) + [p]
    {
      dataBuffer, all, sent := dataBuffer + [Forwarded(p)], all + [Forwarded(p)], sent + [p];
    }

    /** The next packet id: number 100 is followed by 1. */
    method NextPkid() returns (pkid: PacketId)
      requires lastPkid < MAX_INFLIGHT
      modifies this`lastPkid
      ensures pkid == old(lastPkid) + 1 && lastPkid == (old(lastPkid) + 1) % MAX_INFLIGHT
    {
      lastPkid := lastPkid + 1;
      pkid := lastPkid;
      if lastPkid == MAX_INFLIGHT {
        lastPkid := 0;
      }
    }

    /** What pushing `k` of these forwards adds to the buffer. */
    ghost predicate PushedSoFar(buffer: seq<Notification>, all0: seq<Notification>, sent0: seq<Forward>,
                                forwards: seq<Forward>, k: nat)
      reads this
      requires k <= |forwards|
    {
      && dataBuffer == buffer + ForwardNotes(forwards[..k])
      && all == all0 + ForwardNotes(forwards[..k])
      && sent == sent0 + forwards[..k]
    }

    method PushPlain(publishes: seq<Forward>)
      modifies this`dataBuffer, this`all, this`sent
      ensures PushedSoFar(old(dataBuffer), old(all), old(sent), publishes, |publishes|)
    {
      var k := 0;
      while k < |publishes|
        invariant k <= |publishes|
        invariant PushedSoFar(old(dataBuffer), old(all), old(sent), publishes, k)
      {
        Push(publishes[k]);
        MoreNotes(publishes, k);
        k := k + 1;
      }
    }

    method PushNumbered(publishes: seq<Forward>)
      requires lastPkid < MAX_INFLIGHT
      modifies this`dataBuffer, this`all, this`inflightBuffer, this`lastPkid, this`sent
      ensures lastPkid == (old(lastPkid) + |publishes|) % MAX_INFLIGHT
      ensures PushedSoFar(old(dataBuffer), old(all), old(sent), Numbered(publishes, old(lastPkid)), |publishes|)
      ensures inflightBuffer == old(inflightBuffer) + Tickets(Numbered(publishes, old(lastPkid)))
    {
      hide ForwardNotes, Numbered, Tickets;
      ghost var forwards := Numbered(publishes, lastPkid);
      ghost var tickets := Tickets(forwards);
      var k := 0;
      while k < |publishes|
        invariant k <= |publishes|
        invariant lastPkid == (old(lastPkid) + k) % MAX_INFLIGHT
        invariant PushedSoFar(old(dataBuffer), old(all), old(sent), forwards, k)
        invariant inflightBuffer == old(inflightBuffer) + tickets[..k]
      {
        NextMod(old(lastPkid) + k);
        var pkid := NextPkid();
        var p := publishes[k].(publish := publishes[k].publish.(pkid := pkid));
        assert p == forwards[k] && tickets[..k + 1] == tickets[..k] + [Inflight(pkid, p.filterIdx, p.cursor)];
        inflightBuffer := inflightBuffer + [Inflight(pkid, p.filterIdx, p.cursor)];
        Push(p);
        MoreNotes(forwards, k);
        k := k + 1;
      }
      assert tickets[..k] == tickets;
    }

    /** QoS 0 publishes go out as they are; the others are numbered one by one and enter the window. */
    method PushForwards(publishes: seq<Forward>, qos: QoS) returns (bufferCount: nat, inflightCount: nat)
      requires lastPkid < MAX_INFLIGHT
      modifies this`dataBuffer, this`all, this`inflightBuffer, this`lastPkid, this`sent
      ensures lastPkid < MAX_INFLIGHT
      ensures var (out, forwards) := WindowSpec.PushForwards(old(Window()), publishes, qos);
              Window() == out && WireNow() == PushNotes(old(WireNow()), ForwardNotes(forwards))
      ensures bufferCount == |dataBuffer| && inflightCount == |inflightBuffer|
    {
      if qos.AtMostOnce? {
        PushPlain(publishes);
        assert publishes[..|publishes|] == publishes;
      } else {
        PushNumbered(publishes);
        ghost var forwards := Numbered(publishes, old(lastPkid));
        assert forwards[..|forwards|] == forwards;
      }
      bufferCount, inflightCount := |dataBuffer|, |inflightBuffer|;
    }

    /** Takes the oldest entry of the window, and says whether the acknowledgement was for it. */
    method RegisterAck(pkid: PacketId) returns (ok: bool)
      requires lastPkid < MAX_INFLIGHT
      modifies this`inflightBuffer, this`ledger
      ensures (Window(), ok) == WindowSpec.RegisterAck(old(Window()), pkid)
    {
      if inflightBuffer == [] {
        return false;
      }
      var head := inflightBuffer[0];
      inflightBuffer := inflightBuffer[1..];
      ledger := Entered(ledger, head, pkid);
      ok := pkid == head.pkid;
    }

    method RegisterPubrec(pkid: PacketId)
      requires lastPkid < MAX_INFLIGHT
      modifies this`unackedPubrels
      ensures Window() == WindowSpec.RegisterPubrec(old(Window()), pkid)
    {
      unackedPubrels := unackedPubrels + [pkid];
    }

    method RegisterPubcomp(pkid: PacketId) returns (ok: bool)
      requires lastPkid < MAX_INFLIGHT
      modifies this`unackedPubrels
      ensures (Window(), ok) == WindowSpec.RegisterPubcomp(old(Window()), pkid)
    {
      if unackedPubrels == [] {
        return false;
      }
      ok := unackedPubrels[0] == pkid;
      unackedPubrels := unackedPubrels[1..];
    }

    /** For each filter, the cursor of the first of its entries that came from its log. */
    method RetransmissionMap() returns (o: map<FilterIdx, Cursor>)
      ensures forall f :: MapAgrees(o, inflightBuffer, f)
    {
      o := map[];
      var k := 0;
      while k < |inflightBuffer|
        invariant k <= |inflightBuffer|
        invariant forall f :: MapAgrees(o, inflightBuffer[..k], f)
      {
        var e := inflightBuffer[k];
        assert inflightBuffer[..k + 1] == inflightBuffer[..k] + [e];
        MapGrows(o, inflightBuffer[..k], e);
        if e.filterIdx !in o && e.cursor.Some? {
          o := o[e.filterIdx := e.cursor.value];
        }
        k := k + 1;
      }
      assert inflightBuffer[..k] == inflightBuffer;
    }

    /** A wake-up that finds the channel full is dropped. */
    method TryWake()
      modifies this`wakes
      ensures WireNow() == Wake(old(WireNow()))
    {
      if wakes < MAX_CHANNEL_CAPACITY {
        wakes := wakes + 1;
      }
    }
  }

  ghost predicate MapAgrees(o: map<FilterIdx, Cursor>, inflight: seq<Inflight>, f: FilterIdx) {
    if f in o then Retransmission(inflight, f) == Some(o[f]) else Retransmission(inflight, f) == None
  }

  lemma {:induction false} RetransmissionJoin(inflight: seq<Inflight>, e: Inflight, f: FilterIdx)
    ensures Retransmission(inflight + [e], f) ==
            if Retransmission(inflight, f).Some? then Retransmission(inflight, f)
            else if e.filterIdx == f then e.cursor else None
  {
    if inflight != [] {
      assert (inflight + [e])[1..] == inflight[1..] + [e];
      RetransmissionJoin(inflight[1..], e, f);
    }
  }

  lemma MapGrows(o: map<FilterIdx, Cursor>, inflight: seq<Inflight>, e: Inflight)
    requires forall f :: MapAgrees(o, inflight, f)
    ensures var o' := if e.filterIdx !in o && e.cursor.Some? then o[e.filterIdx := e.cursor.value] else o;
            forall f :: MapAgrees(o', inflight + [e], f)
  {
    var o' := if e.filterIdx !in o && e.cursor.Some? then o[e.filterIdx := e.cursor.value] else o;
    var more := inflight + [e];
    forall f: FilterIdx ensures MapAgrees(o', more, f) {
      assert MapAgrees(o, inflight, f);
      RetransmissionJoin(inflight, e, f);
    }
  }

  lemma NextMod(n: nat)
    ensures (n % MAX_INFLIGHT + 1) % MAX_INFLIGHT == (n + 1) % MAX_INFLIGHT
  {
  }

  lemma MoreNotes(fs: seq<Forward>, k: nat)
    requires k < |fs|
    ensures fs[..k + 1] == fs[..k] + [fs[k]]
    ensures ForwardNotes(fs[..k + 1]) == ForwardNotes(fs[..k]) + [Forwarded(fs[k])]
  {
  }
}
