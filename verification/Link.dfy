/** The link of a connection: what it does with the notifications it takes from the router. */
module Links {
  import opened Basics
  import opened RouterTypes
  import opened RouterSpec
  import opened RouterInv
  import opened RouterRun
  import opened RouterLife

  class RemoteLink {
    /** What has been taken from the router and not yet written. */
    var notifications: seq<Notification>

    constructor ()
      ensures notifications == []
    {
      notifications := [];
    }

    /** Swaps the shared buffer with the link's own, which is empty at that point. */
    method Exchange(sendBuffer: seq<Notification>) returns (sendBuffer': seq<Notification>)
      modifies this
      ensures notifications == sendBuffer && sendBuffer' == old(notifications)
    {
      sendBuffer' := notifications;
      notifications := sendBuffer;
    }

    /** Sorts what was taken into packets for the network; the one notification that is no packet asks
        the link to report when it has written them. */
    method Drain() returns (packets: seq<Notification>, unscheduled: bool)
      modifies this
      ensures notifications == []
      ensures unscheduled <==> Unschedule in old(notifications)
      ensures packets == Packets(old(notifications))
    {
      packets, unscheduled := [], false;
      ghost var taken := notifications;
      ghost var k := 0;
      while notifications != []
        invariant k <= |taken| && notifications == taken[k..]
        invariant packets == Packets(taken[..k])
        invariant unscheduled <==> Unschedule in taken[..k]
        decreases |notifications|
      {
        var n := notifications[0];
        notifications := notifications[1..];
        assert taken[..k + 1] == taken[..k] + [n] && taken[..k + 1][..k] == taken[..k];
        if n.Unschedule? {
          unscheduled := true;
        } else {
          packets := packets + [n];
        }
        k := k + 1;
      }
      assert taken[..k] == taken;
    }
  }

  /** The notifications that become packets. */
  ghost function Packets(ns: seq<Notification>): seq<Notification> {
    if ns == [] then []
    else Packets(ns[..|ns| - 1]) + if ns[|ns| - 1].Unschedule? then [] else [ns[|ns| - 1]]
  }

  /** Sorting loses and reorders no forward and no acknowledgement, and leaves nothing else. */
  lemma {:induction false} PacketsKeepForwards(ns: seq<Notification>)
    ensures Forwards(Packets(ns)) == Forwards(ns) && Acks(Packets(ns)) == Acks(ns)
    ensures Unschedule !in Packets(ns)
  {
    if ns != [] {
      var last := ns[|ns| - 1];
      PacketsKeepForwards(ns[..|ns| - 1]);
      var more := if last.Unschedule? then [] else [last];
      ForwardsJoin(Packets(ns[..|ns| - 1]), more);
      AcksJoin(Packets(ns[..|ns| - 1]), more);
      assert [last][..0] == [];
    }
  }

  /** Taking the buffer and writing it out, step by step, is what the run of a link does: the router is
      asked to schedule the connection exactly if it had asked to be told. */
  lemma ServingIsTwoSteps(st: State, id: ConnectionId)
    requires id in st.sess
    ensures var st' := WrittenOut(ExchangeBuffer(st, id), id);
            var w, w' := st.sess[id].wire, st'.sess[id].wire;
            && w'.buffer == [] && w'.link.Waiting? && w'.taken == |w.all| && w'.wakes == w.wakes
            && st'.inbox == st.inbox + (if Unschedule in w.buffer then [(id, LinkReady)] else [])
  {
  }
}
