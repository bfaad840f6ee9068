/** The requests parked at one log, in place. */
module WaiterQueues {
  import opened Basics
  import opened RouterTypes
  import opened RouterSpec

  class Waiters {
    var current: seq<Waiter>

    /** Borrows the waiters of a log. */
    constructor Of(current: seq<Waiter>)
      ensures this.current == current
    {
      this.current := current;
    }

    method Register(id: ConnectionId, request: DataRequest)
      modifies this
      ensures current == old(current) + [(id, request)]
    {
      current := current + [(id, request)];
    }

    /** Everybody who waits, in order; nobody waits any more. */
    method Take() returns (taken: Option<seq<Waiter>>)
      modifies this
      ensures current == []
      ensures taken == if old(current) == [] then None else Some(old(current))
    {
      if current == [] {
        return None;
      }
      taken := Some(current);
      current := [];
    }

    method Position(id: ConnectionId) returns (index: nat)
      ensures index == FirstWaiter(current, id)
    {
      index := 0;
      while index < |current| && current[index].0 != id
        invariant index <= |current|
        invariant forall k :: 0 <= k < index ==> current[k].0 != id
      {
        index := index + 1;
      }
    }

    /** Takes out an element and closes the gap with the last one. */
    method SwapRemoveBack(index: nat) returns (w: Waiter)
      requires index < |current|
      modifies this
      ensures w == old(current)[index] && current == SwapRemove(old(current), index)
    {
      w := current[index];
      current := current[index := current[|current| - 1]];
      current := current[..|current| - 1];
    }

    /** Removes every waiter of a connection, and returns their requests in the order they come out. */
    method Remove(id: ConnectionId) returns (requests: seq<DataRequest>)
      modifies this
      ensures (current, requests) == RemoveWaiters(old(current), id)
    {
      hide RemoveWaiters, SwapRemove;
      requests := [];
      var index := Position(id);
      assert requests + RemoveWaiters(current, id).1 == RemoveWaiters(current, id).1;
      while index < |current|
        invariant index == FirstWaiter(current, id)
        invariant RemoveWaiters(old(current), id) ==
                  (RemoveWaiters(current, id).0, requests + RemoveWaiters(current, id).1)
        decreases |current|
      {
        ghost var before := current;
        var w := SwapRemoveBack(index);
        NextRemoved(before, id);
        assert requests + ([w.1] + RemoveWaiters(current, id).1) == requests + [w.1] + RemoveWaiters(current, id).1;
        requests := requests + [w.1];
        index := Position(id);
      }
      NoneRemoved(current, id);
      assert requests + [] == requests;
    }
  }

  lemma NoneRemoved(ws: seq<Waiter>, id: ConnectionId)
    requires FirstWaiter(ws, id) == |ws|
    ensures RemoveWaiters(ws, id) == (ws, [])
  {
  }

  lemma NextRemoved(ws: seq<Waiter>, id: ConnectionId)
    requires FirstWaiter(ws, id) < |ws|
    ensures var i := FirstWaiter(ws, id);
            var (rest, reqs) := RemoveWaiters(SwapRemove(ws, i), id);
            RemoveWaiters(ws, id) == (rest, [ws[i].1] + reqs)
  {
    hide SwapRemove;
  }
}
