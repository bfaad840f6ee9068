/** The data log as a value: one commit log and its waiters per filter, and the topic cache. */
module StoreSpec {
  import opened Basics
  import opened LogSpec
  import opened RouterTypes
  import opened Topics

  /** History: `hist` is everything ever appended to the log of this filter, which was created when
      `born` publishes had been accepted. */
  datatype Data = Data(filter: Text, log: LaidLog, waiters: seq<Waiter>, hist: seq<Publish>, born: nat)

  /** Logs are never removed, so the keys of their slab are the indexes of a sequence.  The retained
      messages are kept in a list, which fixes the order in which they are read.  History: `accepted`
      is every publish accepted by the broker, as it was sent. */
  datatype RawStore = RawStore(
    logs: seq<Data>, index: map<Text, FilterIdx>, cache: map<Text, seq<FilterIdx>>,
    retained: seq<(Text, Publish)>, maxSegmentSize: nat, maxSegments: nat, accepted: seq<Publish>)

  /** The limits are such that a log can be made: at least 1 KB and one segment.  No topic in the cache
      is one that `matches` panics on. */
  ghost predicate InRange(s: RawStore) {
    && s.maxSegmentSize >= 1024 && s.maxSegments >= 1
    && (forall f :: f in s.index ==> s.index[f] < |s.logs|)
    && (forall t, i :: t in s.cache && 0 <= i < |s.cache[t]| ==> s.cache[t][i] < |s.logs|)
    && (forall t :: t in s.cache ==> !Unsliceable(t))
  }

  type Store = s: RawStore | InRange(s) witness RawStore([], map[], map[], [], 1024, 1, [])

  // ---------------------------------------------------------------- filters of a topic

  /** The filters a topic matches, by a scan of the first `n`. */
  function Scan(logs: seq<Data>, topic: Text, n: nat): (r: seq<FilterIdx>)
    requires n <= |logs|
    ensures forall i :: 0 <= i < |r| ==> r[i] < n
  {
    if n == 0 then []
    else if Matches(topic, logs[n - 1].filter) then Scan(logs, topic, n - 1) + [n - 1]
    else Scan(logs, topic, n - 1)
  }

  /** Looking up a topic panics: it is compared with some filter, and cannot be. */
  predicate LookupFails(store: Store, topic: Text) {
    topic !in store.cache && store.logs != [] && Unsliceable(topic)
  }

  function Lookup(store: Store, topic: Text): (r: (Store, seq<FilterIdx>))
    requires !LookupFails(store, topic)
    ensures |r.0.logs| == |store.logs|
    ensures forall i :: 0 <= i < |r.1| ==> r.1[i] < |store.logs|
  {
    if topic in store.cache then (store, store.cache[topic])
    else
      var found := Scan(store.logs, topic, |store.logs|);
      (if found == [] then store else store.(cache := store.cache[topic := found]), found)
  }

  function NewData(store: Store, filter: Text): Data {
    Data(filter, Empty(store.maxSegmentSize, store.maxSegments), [], [], |store.accepted|)
  }

  function NextNativeOffset(store: Store, filter: Text): (Store, FilterIdx, Cursor) {
    if filter in store.index then
      var idx := store.index[filter];
      (store, idx, store.logs[idx].log.NextOffset())
    else
      var idx := |store.logs|;
      var data := NewData(store, filter);
      (store.(logs := store.logs + [data],
              index := store.index[filter := idx],
              cache := map t | t in store.cache ::
                         if Matches(t, filter) then store.cache[t] + [idx] else store.cache[t]),
       idx, data.log.NextOffset())
  }

  ghost predicate NoDuplicates(s: seq<FilterIdx>) {
    forall i, j :: 0 <= i < j < |s| ==> s[i] != s[j]
  }

  /** `found` lists, once each, exactly the filters that match the topic. */
  ghost predicate ExactMatches(logs: seq<Data>, topic: Text, found: seq<FilterIdx>) {
    && NoDuplicates(found)
    && forall j: nat :: j in found <==> j < |logs| && Matches(topic, logs[j].filter)
  }

  ghost predicate CacheOk(store: Store) {
    forall t :: t in store.cache ==> ExactMatches(store.logs, t, store.cache[t])
  }

  ghost predicate IndexOk(store: Store) {
    && (forall f :: f in store.index ==> store.index[f] < |store.logs| && store.logs[store.index[f]].filter == f)
    && (forall j :: 0 <= j < |store.logs| ==>
          store.logs[j].filter in store.index && store.index[store.logs[j].filter] == j)
  }

  lemma {:induction false} ScanIsExact(logs: seq<Data>, topic: Text, n: nat)
    requires n <= |logs|
    ensures NoDuplicates(Scan(logs, topic, n))
    ensures forall j: nat :: j in Scan(logs, topic, n) <==> j < n && Matches(topic, logs[j].filter)
  {
    if n > 0 {
      ScanIsExact(logs, topic, n - 1);
    }
  }

  /** A lookup panics exactly if there is a filter to compare the topic with, and comparing panics. */
  lemma LookupFailsIff(store: Store, topic: Text)
    ensures LookupFails(store, topic) <==> store.logs != [] && MatchCall(topic, store.logs[0].filter) == None
  {
  }

  /** Otherwise it finds exactly the matching filters, cached or not, and keeps the cache exact. */
  lemma LookupIsExact(store: Store, topic: Text)
    requires CacheOk(store) && !LookupFails(store, topic)
    ensures var (s, found) := Lookup(store, topic);
            && ExactMatches(store.logs, topic, found)
            && CacheOk(s) && s == store.(cache := s.cache)
  {
    ScanIsExact(store.logs, topic, |store.logs|);
  }

  /** What it found is in the cache afterwards, if it is anything, and what else was there still is. */
  lemma LookupCaches(store: Store, topic: Text)
    requires !LookupFails(store, topic)
    ensures var (s, found) := Lookup(store, topic);
            && (found != [] ==> topic in s.cache && s.cache[topic] == found)
            && forall t :: t in store.cache ==> t in s.cache && s.cache[t] == store.cache[t]
  {
    hide Scan;
  }

  lemma NewFilterKeepsMatches(logs: seq<Data>, data: Data, topic: Text, found: seq<FilterIdx>)
    requires ExactMatches(logs, topic, found)
    ensures ExactMatches(logs + [data], topic, if Matches(topic, data.filter) then found + [|logs|] else found)
  {
    var all := logs + [data];
    assert forall j :: 0 <= j < |logs| ==> all[j] == logs[j];
    assert forall i :: 0 <= i < |found| ==> found[i] in found;
    var more := if Matches(topic, data.filter) then found + [|logs|] else found;
    forall j: nat ensures j in more <==> j < |all| && Matches(topic, all[j].filter) {
      if j < |logs| {
        assert j in more <==> j in found;
      }
    }
  }

  /** Adding a filter files it under every cached topic it matches, and only under those. */
  lemma NextNativeOffsetKeeps(store: Store, filter: Text)
    requires CacheOk(store) && IndexOk(store)
    ensures var (s, idx, cursor) := NextNativeOffset(store, filter);
            && CacheOk(s) && IndexOk(s)
            && idx < |s.logs| && s.logs[idx].filter == filter && s.index[filter] == idx
            && |store.logs| <= |s.logs| && (forall j :: 0 <= j < |store.logs| ==> s.logs[j] == store.logs[j])
            && (|store.logs| < |s.logs| ==> s.logs == store.logs + [NewData(store, filter)])
  {
    if filter !in store.index {
      var (s, idx, cursor) := NextNativeOffset(store, filter);
      forall t | t in s.cache ensures ExactMatches(s.logs, t, s.cache[t]) {
        NewFilterKeepsMatches(store.logs, NewData(store, filter), t, store.cache[t]);
      }
    }
  }

  // ---------------------------------------------------------------- appending

  function AppendOne(data: Data, item: Publish): Data {
    Data(data.filter, AppendLaid(data.log, item), [], data.hist + [item], data.born)
  }

  /** Appends to each of the logs and takes all their waiters. */
  function AppendMany(logs: seq<Data>, idxs: seq<FilterIdx>, item: Publish): (r: (seq<Data>, seq<Waiter>))
    requires forall i :: 0 <= i < |idxs| ==> idxs[i] < |logs|
    ensures |r.0| == |logs|
    decreases |idxs|
  {
    if idxs == [] then (logs, [])
    else
      var j := idxs[0];
      var (rest, woken) := AppendMany(logs[j := AppendOne(logs[j], item)], idxs[1..], item);
      (rest, logs[j].waiters + woken)
  }

  lemma {:induction false} AppendManyLogs(logs: seq<Data>, idxs: seq<FilterIdx>, item: Publish)
    requires forall i :: 0 <= i < |idxs| ==> idxs[i] < |logs|
    requires NoDuplicates(idxs)
    ensures var r := AppendMany(logs, idxs, item).0;
            forall j :: 0 <= j < |logs| ==> r[j] == if j in idxs then AppendOne(logs[j], item) else logs[j]
    decreases |idxs|
  {
    if idxs != [] {
      var i := idxs[0];
      AppendManyLogs(logs[i := AppendOne(logs[i], item)], idxs[1..], item);
      assert forall j: nat :: j in idxs <==> j == i || j in idxs[1..];
      assert i !in idxs[1..];
    }
  }

  // ---------------------------------------------------------------- retained messages

  function RetainedDrop(retained: seq<(Text, Publish)>, topic: Text): seq<(Text, Publish)> {
    if retained == [] then []
    else if retained[0].0 == topic then RetainedDrop(retained[1..], topic)
    else [retained[0]] + RetainedDrop(retained[1..], topic)
  }

  function RetainedPut(retained: seq<(Text, Publish)>, topic: Text, p: Publish): seq<(Text, Publish)> {
    RetainedDrop(retained, topic) + [(topic, p)]
  }

  /** Reading the retained messages panics on any of these topics, whatever the filter. */
  predicate RetainedFails(retained: seq<(Text, Publish)>) {
    exists k :: 0 <= k < |retained| && Unsliceable(retained[k].0)
  }

  function RetainedFor(retained: seq<(Text, Publish)>, filter: Text): seq<Publish> {
    if retained == [] then []
    else if Matches(retained[0].0, filter) then [retained[0].1] + RetainedFor(retained[1..], filter)
    else RetainedFor(retained[1..], filter)
  }

  /** `p` is the last publish of the topic that asked to be retained and had something to keep, and none
      with an empty payload has come since. */
  ghost predicate LastRetained(ps: seq<Publish>, topic: Text, p: Publish) {
    exists k :: 0 <= k < |ps| && ps[k] == p && IsLastWord(ps, topic, k)
  }

  ghost predicate IsLastWord(ps: seq<Publish>, topic: Text, k: nat)
    requires k < |ps|
  {
    && ps[k].topic == topic && ps[k].retain && ps[k].payload != []
    && forall j :: k < j < |ps| && ps[j].topic == topic ==> !ps[j].retain && ps[j].payload != []
  }

  /** There is at most one retained message for a topic, and it is the last that was accepted. */
  ghost predicate RetainedOk(retained: seq<(Text, Publish)>, accepted: seq<Publish>) {
    && (forall i, j :: 0 <= i < j < |retained| ==> retained[i].0 != retained[j].0)
    && (forall t, p :: (t, p) in retained <==> LastRetained(accepted, t, p))
  }

  lemma {:induction false} DropKeepsOthers(retained: seq<(Text, Publish)>, topic: Text)
    ensures var r := RetainedDrop(retained, topic);
            forall e :: e in r <==> e in retained && e.0 != topic
    ensures (forall i, j :: 0 <= i < j < |retained| ==> retained[i].0 != retained[j].0) ==>
              var r := RetainedDrop(retained, topic); forall i, j :: 0 <= i < j < |r| ==> r[i].0 != r[j].0
  {
    if retained != [] {
      var rest := retained[1..];
      DropKeepsOthers(rest, topic);
      assert forall e :: e in retained <==> e == retained[0] || e in rest;
      forall k | 0 <= k < |rest| && (forall i, j :: 0 <= i < j < |retained| ==> retained[i].0 != retained[j].0)
        ensures rest[k].0 != retained[0].0
      {
        assert rest[k] == retained[k + 1];
      }
      var r := RetainedDrop(rest, topic);
      assert forall k :: 0 <= k < |r| ==> r[k] in r;
    }
  }

  /** One more publish has the last word on its topic, or leaves all topics as they were. */
  lemma OneMoreWord(ps: seq<Publish>, p: Publish, topic: Text, q: Publish)
    ensures LastRetained(ps + [p], topic, q) <==>
            if p.topic == topic && (p.retain || p.payload == []) then q == p && p.payload != []
            else LastRetained(ps, topic, q)
  {
    var all := ps + [p];
    assert all[|ps|] == p;
    if LastRetained(all, topic, q) {
      var k :| 0 <= k < |all| && all[k] == q && IsLastWord(all, topic, k);
      if k < |ps| {
        assert ps[k] == q && forall j :: k < j < |ps| ==> all[j] == ps[j];
        assert IsLastWord(ps, topic, k);
      }
    }
    if LastRetained(ps, topic, q) && !(p.topic == topic && (p.retain || p.payload == [])) {
      var k :| 0 <= k < |ps| && ps[k] == q && IsLastWord(ps, topic, k);
      assert all[k] == q && IsLastWord(all, topic, k);
    }
    if q == p && p.topic == topic && p.retain && p.payload != [] {
      assert IsLastWord(all, topic, |ps|);
    }
  }

  /** Retaining, replacing and clearing keep it so. */
  lemma UpdateKeepsRetained(store: Store, p: Publish)
    requires RetainedOk(store.retained, store.accepted)
    ensures RetainedOk(UpdateRetained(store, p).retained, store.accepted + [p])
  {
    hide LastRetained, RetainedDrop;
    var retained := UpdateRetained(store, p).retained;
    DropKeepsOthers(store.retained, p.topic);
    var dropped := RetainedDrop(store.retained, p.topic);
    if p.payload != [] && p.retain {
      assert retained == dropped + [(p.topic, p)];
      forall i, j | 0 <= i < j < |retained| ensures retained[i].0 != retained[j].0 {
        assert dropped[i] in dropped;
      }
    }
    forall t, q ensures (t, q) in retained <==> LastRetained(store.accepted + [p], t, q) {
      OneMoreWord(store.accepted, p, t, q);
    }
  }

  /** `r` lists, once each and in the order in which they are kept, exactly the retained messages whose
      topic matches the filter. */
  ghost predicate Selects(retained: seq<(Text, Publish)>, filter: Text, r: seq<Publish>) {
    exists places :: SelectedAt(retained, filter, r, places)
  }

  ghost predicate SelectedAt(retained: seq<(Text, Publish)>, filter: Text, r: seq<Publish>, places: seq<nat>) {
    && |places| == |r|
    && (forall i, j :: 0 <= i < j < |places| ==> places[i] < places[j])
    && (forall k :: 0 <= k < |places| ==> places[k] < |retained| && r[k] == retained[places[k]].1)
    && (forall i: nat :: i in places <==> i < |retained| && Matches(retained[i].0, filter))
  }

  lemma {:induction false} RetainedForJoin(a: seq<(Text, Publish)>, b: seq<(Text, Publish)>, filter: Text)
    ensures RetainedFor(a + b, filter) == RetainedFor(a, filter) + RetainedFor(b, filter)
  {
    hide Matches;
    if a == [] {
      assert a + b == b;
    } else {
      RetainedForJoin(a[1..], b, filter);
      assert (a + b)[1..] == a[1..] + b;
    }
  }

  lemma RetainedForOne(e: (Text, Publish), filter: Text)
    ensures RetainedFor([e], filter) == if Matches(e.0, filter) then [e.1] else []
  {
    hide Matches;
    var one := [e];
    assert one[1..] == [];
  }

  /** One more message is selected last, or not at all. */
  lemma SelectedLast(retained: seq<(Text, Publish)>, filter: Text, r: seq<Publish>, places: seq<nat>)
    requires retained != [] && SelectedAt(retained[..|retained| - 1], filter, r, places)
    ensures var n := |retained| - 1;
            if Matches(retained[n].0, filter) then SelectedAt(retained, filter, r + [retained[n].1], places + [n])
            else SelectedAt(retained, filter, r, places)
  {
    hide Matches;
    var n := |retained| - 1;
    var less := retained[..n];
    assert forall k :: 0 <= k < n ==> less[k] == retained[k];
  }

  lemma {:induction false} RetainedForSelects(retained: seq<(Text, Publish)>, filter: Text)
    ensures Selects(retained, filter, RetainedFor(retained, filter))
  {
    hide Matches, SelectedAt;
    if retained == [] {
      NothingSelected(filter);
    } else {
      var n := |retained| - 1;
      var less := RetainedFor(retained[..n], filter);
      RetainedForSelects(retained[..n], filter);
      var places :| SelectedAt(retained[..n], filter, less, places);
      SelectedLast(retained, filter, less, places);
      RetainedForJoin(retained[..n], [retained[n]], filter);
      RetainedForOne(retained[n], filter);
      assert retained[..n] + [retained[n]] == retained && less + [] == less;
    }
  }

  lemma NothingSelected(filter: Text)
    ensures SelectedAt([], filter, [], [])
  {
  }

  /** An empty payload clears the retained message of its topic, whether or not it asks to be retained. */
  function UpdateRetained(store: Store, p: Publish): Store {
    if p.payload == [] then store.(retained := RetainedDrop(store.retained, p.topic))
    else if p.retain then store.(retained := RetainedPut(store.retained, p.topic, p))
    else store
  }

  // ---------------------------------------------------------------- publishing

  /** Appends a publish to every log whose filter its topic matches, and takes their waiters. */
  function Accept(store: Store, p: Publish): (Store, seq<Waiter>)
    requires !LookupFails(store, p.topic)
  {
    var (found, idxs) := Lookup(UpdateRetained(store, p), p.topic);
    var item := p.(retain := false);
    var (logs, woken) := AppendMany(found.logs, idxs, item);
    (found.(logs := logs, accepted := store.accepted + [p]), woken)
  }

  /** The publishes of a history whose topic matches a filter, in order, as they go into its log: no longer
      marked as retained. */
  ghost function Matching(ps: seq<Publish>, filter: Text): seq<Publish> {
    if ps == [] then []
    else
      var last := ps[|ps| - 1];
      Matching(ps[..|ps| - 1], filter) + if Matches(last.topic, filter) then [last.(retain := false)] else []
  }

  /** Each log has received exactly the accepted publishes that match its filter, since it exists. */
  ghost predicate HistOk(store: Store) {
    forall j :: 0 <= j < |store.logs| ==> DataHist(store.logs[j], store.accepted)
  }

  ghost predicate DataHist(d: Data, accepted: seq<Publish>) {
    && d.born <= |accepted|
    && d.hist == Matching(accepted[d.born..], d.filter)
    && Holds(d.log, d.hist)
  }

  /** Each log is within the limits it was made with, and with it what it keeps in memory. */
  ghost predicate ShapesOk(store: Store) {
    forall j :: 0 <= j < |store.logs| ==> ShapedAs(store.logs[j].log, store.maxSegmentSize, store.maxSegments)
  }

  ghost predicate ShapedAs(log: LaidLog, maxSegmentSize: nat, maxSegments: nat) {
    Shape(log) && log.maxSegmentSize == maxSegmentSize && log.maxSegments == maxSegments
  }

  ghost predicate StoreOk(store: Store) {
    && IndexOk(store) && CacheOk(store) && HistOk(store) && ShapesOk(store)
    && RetainedOk(store.retained, store.accepted)
  }

  lemma AcceptKeepsHist(d: Data, accepted: seq<Publish>, p: Publish)
    requires DataHist(d, accepted)
    ensures DataHist(if Matches(p.topic, d.filter) then AppendOne(d, p.(retain := false)) else d, accepted + [p])
  {
    var all := accepted + [p];
    assert all[d.born..][..|all| - d.born - 1] == accepted[d.born..];
    AppendHolds(d.log, d.hist, p.(retain := false));
  }

  lemma AcceptKeepsShape(d: Data, accepted: seq<Publish>, item: Publish, maxSegmentSize: nat, maxSegments: nat)
    requires DataHist(d, accepted) && ShapedAs(d.log, maxSegmentSize, maxSegments) && maxSegments >= 1
    ensures ShapedAs(AppendOne(d, item).log, maxSegmentSize, maxSegments)
  {
    AppendShape(d.log, d.hist, item);
  }

  lemma AcceptLogs(store: Store, p: Publish)
    requires CacheOk(store) && !LookupFails(store, p.topic)
    ensures var (s, woken) := Accept(store, p);
            && |s.logs| == |store.logs|
            && s.maxSegmentSize == store.maxSegmentSize && s.maxSegments == store.maxSegments
            && (forall j :: 0 <= j < |s.logs| ==>
                  s.logs[j] == if Matches(p.topic, store.logs[j].filter)
                               then AppendOne(store.logs[j], p.(retain := false)) else store.logs[j])
            && s.accepted == store.accepted + [p] && s.retained == UpdateRetained(store, p).retained
            && s.index == store.index
            && (s.cache == store.cache || s.cache == Lookup(UpdateRetained(store, p), p.topic).0.cache)
  {
    var u := UpdateRetained(store, p);
    LookupIsExact(u, p.topic);
    var (found, idxs) := Lookup(u, p.topic);
    AppendManyLogs(found.logs, idxs, p.(retain := false));
  }

  lemma MatchesAreKept(logs: seq<Data>, logs': seq<Data>, topic: Text, found: seq<FilterIdx>)
    requires ExactMatches(logs, topic, found) && |logs'| == |logs|
    requires forall j :: 0 <= j < |logs| ==> logs'[j].filter == logs[j].filter
    ensures ExactMatches(logs', topic, found)
  {
  }

  lemma AcceptKeepsHistories(store: Store, p: Publish)
    requires CacheOk(store) && HistOk(store) && ShapesOk(store) && !LookupFails(store, p.topic)
    ensures HistOk(Accept(store, p).0) && ShapesOk(Accept(store, p).0)
  {
    hide Accept, DataHist, ShapedAs, CacheOk;
    AcceptLogs(store, p);
    var s, item := Accept(store, p).0, p.(retain := false);
    forall j | 0 <= j < |s.logs|
      ensures DataHist(s.logs[j], s.accepted) && ShapedAs(s.logs[j].log, s.maxSegmentSize, s.maxSegments)
    {
      assert DataHist(store.logs[j], store.accepted);
      AcceptKeepsHist(store.logs[j], store.accepted, p);
      AcceptKeepsShape(store.logs[j], store.accepted, item, store.maxSegmentSize, store.maxSegments);
    }
  }

  lemma AcceptKeepsCache(store: Store, p: Publish)
    requires CacheOk(store) && !LookupFails(store, p.topic)
    ensures CacheOk(Accept(store, p).0)
  {
    hide Accept, ExactMatches;
    AcceptLogs(store, p);
    var s := Accept(store, p).0;
    LookupIsExact(UpdateRetained(store, p), p.topic);
    forall t | t in s.cache ensures ExactMatches(s.logs, t, s.cache[t]) {
      MatchesAreKept(store.logs, s.logs, t, s.cache[t]);
    }
  }

  /** Accepting a publish keeps the store in order, whether its topic was cached or not. */
  lemma AcceptKeepsStore(store: Store, p: Publish)
    requires StoreOk(store) && !LookupFails(store, p.topic)
    ensures StoreOk(Accept(store, p).0)
  {
    hide Accept, CacheOk, HistOk, ShapesOk, RetainedOk, UpdateRetained;
    AcceptLogs(store, p);
    UpdateKeepsRetained(store, p);
    AcceptKeepsHistories(store, p);
    AcceptKeepsCache(store, p);
  }
}
