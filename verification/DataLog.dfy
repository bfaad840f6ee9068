/** The data log, in place: one commit log with its waiters per filter, and the filters of each topic.
    A commit log is kept here as a value; the class `CommitLog` is proved against the same functions. */
module DataLogs {
  import opened Basics
  import opened LogSpec
  import opened RouterTypes
  import opened StoreSpec
  import opened Topics
  import opened RouterSpec
  import opened WaiterQueues

  class DataLog {
    var native: seq<Data>
    var filterIndexes: map<Text, FilterIdx>
    var publishFilters: map<Text, seq<FilterIdx>>
    var retainedPublishes: seq<(Text, Publish)>
    const maxSegmentSize: nat
    const maxSegmentCount: nat
    /** History: everything accepted so far. */
    var accepted: seq<Publish>

    constructor (maxSegmentSize: nat, maxSegmentCount: nat)
      requires maxSegmentSize >= 1024 && maxSegmentCount >= 1
      ensures Valid() && View() == RawStore([], map[], map[], [], maxSegmentSize, maxSegmentCount, [])
    {
      native, filterIndexes, publishFilters, retainedPublishes, accepted := [], map[], map[], [], [];
      this.maxSegmentSize, this.maxSegmentCount := maxSegmentSize, maxSegmentCount;
    }

    ghost function Raw(): RawStore
      reads this
    {
      RawStore(native, filterIndexes, publishFilters, retainedPublishes, maxSegmentSize, maxSegmentCount, accepted)
    }

    ghost predicate Valid()
      reads this
    {
      InRange(Raw())
    }

    ghost function View(): Store
      reads this
      requires Valid()
    {
      Raw()
    }

    /** The indexes of the filters a topic matches: those cached for it, or else a scan of all filters,
        which is cached unless it is empty; nothing if a comparison panics. */
    method Matches(topic: Text) returns (found: Option<seq<FilterIdx>>)
      requires Valid()
      modifies this`publishFilters
      ensures Valid()
      ensures found.None? <==> LookupFails(old(View()), topic)
      ensures found.None? ==> View() == old(View())
      ensures found.Some? ==> (View(), found.value) == Lookup(old(View()), topic)
    {
      if topic in publishFilters {
        return Some(publishFilters[topic]);
      }
      var idxs := [];
      var i := 0;
      while i < |native|
        invariant i <= |native| && idxs == Scan(native, topic, i)
        invariant i > 0 ==> !Unsliceable(topic)
        invariant publishFilters == old(publishFilters)
      {
        var matched := MatchLoop(topic, native[i].filter);
        if matched.None? {
          return None;
        }
        if matched.value {
          idxs := idxs + [i];
        }
        i := i + 1;
      }
      if idxs != [] {
        publishFilters := publishFilters[topic := idxs];
      }
      found := Some(idxs);
    }

    /** Files a new filter under every cached topic it matches.  None of these comparisons panics. */
    method FileUnderTopics(filter: Text, idx: FilterIdx)
      requires forall t :: t in publishFilters ==> !Unsliceable(t)
      modifies this`publishFilters
      ensures publishFilters == map t | t in old(publishFilters) ::
                if Topics.Matches(t, filter) then old(publishFilters)[t] + [idx] else old(publishFilters)[t]
    {
      var topics := publishFilters.Keys;
      while topics != {}
        invariant publishFilters.Keys == old(publishFilters).Keys && topics <= publishFilters.Keys
        invariant forall t :: t in topics ==> publishFilters[t] == old(publishFilters)[t]
        invariant forall t :: t in publishFilters && t !in topics ==>
          publishFilters[t] == if Topics.Matches(t, filter) then old(publishFilters)[t] + [idx]
            else old(publishFilters)[t]
        decreases |topics|
      {
        var t :| t in topics;
        var matched := MatchLoop(t, filter);
        if matched.value {
          publishFilters := publishFilters[t := publishFilters[t] + [idx]];
        }
        topics := topics - {t};
      }
    }

    method NextNativeOffset(filter: Text) returns (idx: FilterIdx, offset: Cursor)
      requires Valid()
      modifies this`native, this`filterIndexes, this`publishFilters
      ensures Valid() && (View(), idx, offset) == StoreSpec.NextNativeOffset(old(View()), filter)
    {
      if filter in filterIndexes {
        idx := filterIndexes[filter];
      } else {
        var data := Data(filter, Empty(maxSegmentSize, maxSegmentCount), [], [], |accepted|);
        idx := |native|;
        native := native + [data];
        filterIndexes := filterIndexes[filter := idx];
        FileUnderTopics(filter, idx);
        assert publishFilters == StoreSpec.NextNativeOffset(old(View()), filter).0.cache;
      }
      offset := native[idx].log.NextOffset();
    }

    method NativeReadv(idx: FilterIdx, offset: Cursor, len: nat) returns (position: Position, items: seq<Entry>)
      requires idx < |native|
      ensures (position, items) == ReadV(native[idx].log, offset, len)
    {
      var r := ReadV(native[idx].log, offset, len);
      position, items := r.0, r.1;
    }

    /** Appends to one log and takes its waiters. */
    method AppendTo(idx: FilterIdx, item: Publish) returns (woken: seq<Waiter>)
      requires idx < |native|
      modifies this`native
      ensures native == old(native)[idx := AppendOne(old(native)[idx], item)] && woken == old(native)[idx].waiters
    {
      var d := native[idx];
      var waiters := new Waiters.Of(d.waiters);
      var taken := waiters.Take();
      woken := if taken.Some? then taken.value else [];
      native := native[idx := Data(d.filter, AppendLaid(d.log, item), waiters.current, d.hist + [item], d.born)];
    }

    /** Retains or clears, and appends to every log the topic matches; stops after the first if looking up
        the topic panics. */
    method Accept(publish: Publish) returns (woken: Option<seq<Waiter>>)
      requires Valid()
      modifies this
      ensures Valid()
      ensures woken.None? <==> LookupFails(old(View()), publish.topic)
      ensures woken.None? ==> View() == UpdateRetained(old(View()), publish)
      ensures woken.Some? ==> (View(), woken.value) == StoreSpec.Accept(old(View()), publish)
    {
      if publish.payload == [] {
        retainedPublishes := RetainedDrop(retainedPublishes, publish.topic);
      } else if publish.retain {
        retainedPublishes := RetainedPut(retainedPublishes, publish.topic, publish);
      }
      ghost var updated := UpdateRetained(old(View()), publish);
      assert View() == updated;
      var item := publish.(retain := false);
      var found := Matches(publish.topic);
      if found.None? {
        return None;
      }
      var notifications := AppendEach(found.value, item);
      accepted := accepted + [publish];
      woken := Some(notifications);
    }

    method AppendEach(idxs: seq<FilterIdx>, item: Publish) returns (notifications: seq<Waiter>)
      requires forall i :: 0 <= i < |idxs| ==> idxs[i] < |native|
      modifies this`native
      ensures (native, notifications) == AppendMany(old(native), idxs, item)
    {
      notifications := [];
      var k := 0;
      assert idxs[0..] == idxs;
      assert AppendMany(native, idxs[k..], item).1 == notifications + AppendMany(native, idxs[k..], item).1;
      while k < |idxs|
        invariant k <= |idxs| && |native| == |old(native)|
        invariant AppendMany(old(native), idxs, item) ==
                  (AppendMany(native, idxs[k..], item).0, notifications + AppendMany(native, idxs[k..], item).1)
      {
        ghost var before := native;
        var woken := AppendTo(idxs[k], item);
        assert idxs[k..][1..] == idxs[k + 1..];
        assert notifications + (woken + AppendMany(native, idxs[k + 1..], item).1)
               == notifications + woken + AppendMany(native, idxs[k + 1..], item).1;
        notifications := notifications + woken;
        k := k + 1;
      }
      assert notifications + [] == notifications;
    }

    /** The retained messages whose topic matches the filter, once each; nothing if a comparison panics. */
    method ReadRetainedMessages(filter: Text) returns (read: Option<seq<Publish>>)
      ensures read.Some? ==> Selects(retainedPublishes, filter, read.value)
      ensures read.None? <==> RetainedFails(retainedPublishes)
      ensures read.Some? ==> read.value == RetainedFor(retainedPublishes, filter)
    {
      var messages := [];
      var k := 0;
      while k < |retainedPublishes|
        invariant k <= |retainedPublishes|
        invariant forall i :: 0 <= i < k ==> !Unsliceable(retainedPublishes[i].0)
        invariant RetainedFor(retainedPublishes, filter) == messages + RetainedFor(retainedPublishes[k..], filter)
      {
        var (topic, p) := retainedPublishes[k];
        assert retainedPublishes[k..][1..] == retainedPublishes[k + 1..];
        var matched := MatchLoop(topic, filter);
        if matched.None? {
          return None;
        }
        if matched.value {
          assert messages + ([p] + RetainedFor(retainedPublishes[k + 1..], filter))
                 == messages + [p] + RetainedFor(retainedPublishes[k + 1..], filter);
          messages := messages + [p];
        }
        k := k + 1;
      }
      assert messages + [] == messages;
      RetainedForSelects(retainedPublishes, filter);
      read := Some(messages);
    }

    method Park(id: ConnectionId, request: DataRequest)
      requires Valid() && request.filterIdx < |native|
      modifies this`native
      ensures Valid()
      ensures native == old(native)[request.filterIdx := old(native)[request.filterIdx].(
                          waiters := old(native)[request.filterIdx].waiters + [(id, request)])]
    {
      var d := native[request.filterIdx];
      var waiters := new Waiters.Of(d.waiters);
      waiters.Register(id, request);
      native := native[request.filterIdx := d.(waiters := waiters.current)];
    }

    /** Takes the first waiter of a connection out of one log, if there is one. */
    method RemoveWaitersForId(id: ConnectionId, filter: Text) returns (removed: Option<DataRequest>)
      requires Valid()
      modifies this`native
      ensures Valid() && View() == RemoveWaiterOf(old(View()), id, filter)
    {
      if filter !in filterIndexes {
        return None;
      }
      var idx := filterIndexes[filter];
      var d := native[idx];
      var waiters := new Waiters.Of(d.waiters);
      var index := waiters.Position(id);
      if index == |waiters.current| {
        return None;
      }
      var w := waiters.SwapRemoveBack(index);
      native := native[idx := d.(waiters := waiters.current)];
      removed := Some(w.1);
    }

    /** Takes every waiter of a connection out of every log. */
    method Clean(id: ConnectionId) returns (inflight: seq<DataRequest>)
      requires Valid()
      modifies this`native
      ensures Valid() && (native, inflight) == CleanLogs(old(native), id)
    {
      inflight := [];
      var k := 0;
      assert native[0..] == native && native[..0] == [];
      assert [] + CleanLogs(native, id).0 == CleanLogs(native, id).0
             && inflight + CleanLogs(native, id).1 == CleanLogs(native, id).1;
      while k < |native|
        invariant k <= |native| == |old(native)|
        invariant CleanLogs(old(native), id) ==
                  (native[..k] + CleanLogs(native[k..], id).0, inflight + CleanLogs(native[k..], id).1)
      {
        var d := native[k];
        ghost var rest := native[k + 1..];
        assert native[k..][1..] == rest;
        var waiters := new Waiters.Of(d.waiters);
        var requests := waiters.Remove(id);
        CleanedNext(native[..k], d, waiters.current, inflight, requests, rest, id);
        native := native[k := d.(waiters := waiters.current)];
        assert native[..k + 1] == native[..k] + [d.(waiters := waiters.current)] && native[k + 1..] == rest;
        inflight := inflight + requests;
        k := k + 1;
      }
      assert native[..k] + [] == native && inflight + [] == inflight;
    }
  }

  lemma CleanedNext(done: seq<Data>, d: Data, ws: seq<Waiter>, inflight: seq<DataRequest>, requests: seq<DataRequest>,
                    rest: seq<Data>, id: ConnectionId)
    requires (ws, requests) == RemoveWaiters(d.waiters, id)
    ensures done + CleanLogs([d] + rest, id).0 == done + [d.(waiters := ws)] + CleanLogs(rest, id).0
    ensures inflight + CleanLogs([d] + rest, id).1 == inflight + requests + CleanLogs(rest, id).1
  {
    assert ([d] + rest)[1..] == rest;
  }
}
