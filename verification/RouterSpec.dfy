/** The router as a value: what each event does to it. */
module RouterSpec {
  import opened Basics
  import opened LogSpec
  import LogReader
  import opened RouterTypes
  import opened StoreSpec
  import opened Topics
  import opened WindowSpec

  // ---------------------------------------------------------------- state

  /** Where the link of a connection stands: being built, waiting for a wake-up, woken but not yet
      holding the buffer, or writing what it took. */
  datatype Link = Building | Waiting | Woken | Writing(unscheduled: bool)

  /** What the router shares with the link: the notification buffer and the wake-ups in the channel.
      History: `all` is everything ever put in the buffer, `taken` how much of it the link has taken, and
      `seen` how much there was when it last looked. */
  datatype Wire = Wire(
    buffer: seq<Notification>, wakes: nat, link: Link, all: seq<Notification>, taken: nat, seen: nat)

  /** History of a subscription: the log position it first started from and how many publishes had been
      accepted by then, the position its connection started from, how many forwards that had been sent by
      then, and whether the retained messages were still owed to it then. */
  datatype Origin = Origin(first: nat, since: nat, start: nat, mark: nat, owed: bool)

  /** Everything the router keeps under one slab key. */
  datatype Session = Session(
    client: Text, clean: bool, subs: set<Text>, origin: map<Text, Origin>,
    reqs: seq<DataRequest>, status: Status, out: Out, wire: Wire,
    committed: seq<Ack>, recorded: seq<Publish>)

  datatype Saved = Saved(
    subs: set<Text>, origin: map<Text, Origin>, reqs: seq<DataRequest>, unackedPubrels: seq<PacketId>,
    ledger: Ledger)

  datatype Event =
    | Connect(client: Text, clean: bool, will: Option<Publish>)
    | DeviceData(packets: seq<Packet>)
    | Disconnected
    | LinkReady
    | PublishWill(willClient: Text)

  datatype Config = Config(maxOutgoing: nat, maxConnections: nat)

  /** `panicked` is set where the source would unwrap nothing or fail an assertion. */
  datatype State = State(
    sess: map<ConnectionId, Session>, ready: seq<ConnectionId>, store: Store, notes: seq<Waiter>,
    grave: map<Text, Saved>, byClient: map<Text, ConnectionId>, subMap: map<Text, set<ConnectionId>>,
    wills: map<Text, Publish>, inbox: seq<(ConnectionId, Event)>, cfg: Config, panicked: bool)

  function Panic(st: State): State { st.(panicked := true) }

  function With(st: State, id: ConnectionId, s: Session): State { st.(sess := st.sess[id := s]) }

  function Initial(maxSegmentSize: nat, maxSegments: nat, cfg: Config): State
    requires maxSegmentSize >= 1024 && maxSegments >= 1
  {
    State(map[], [], RawStore([], map[], map[], [], maxSegmentSize, maxSegments, []), [], map[], map[], map[],
          map[], [], cfg, false)
  }

  // ---------------------------------------------------------------- scheduler

  function TryReady(status: Status, reason: ScheduleReason): Status {
    match status
    case Ready => Ready
    case Paused(p) =>
      match reason
      case Init => Ready
      case NewFilter => if p.Caughtup? then Ready else status
      case FreshData => if p.Caughtup? then Ready else status
      case IncomingAck => if p.Busy? then status else Ready
      case ReadyEvent => Ready
  }

  function Reschedule(st: State, id: ConnectionId, reason: ScheduleReason): State {
    if id !in st.sess then Panic(st)
    else
      var s := st.sess[id];
      if s.status.Paused? && TryReady(s.status, reason).Ready? then
        With(st, id, s.(status := Ready)).(ready := st.ready + [id])
      else st
  }

  /** The router pauses only the connection it has just polled, which is last in the queue. */
  function Pause(st: State, id: ConnectionId, reason: PauseReason): State {
    if st.ready == [] || st.ready[|st.ready| - 1] != id || id !in st.sess then Panic(st)
    else With(st, id, st.sess[id].(status := Paused(reason))).(ready := st.ready[..|st.ready| - 1])
  }

  function Track(st: State, id: ConnectionId, r: DataRequest): State {
    if id !in st.sess then Panic(st)
    else With(st, id, st.sess[id].(reqs := st.sess[id].reqs + [r]))
  }

  /** Hands the woken requests back to their connections. */
  function Drain(st: State): State
    decreases |st.notes|
  {
    if st.notes == [] then st
    else
      var (id, r) := st.notes[0];
      var tracked := Track(st.(notes := st.notes[1..]), id, r);
      if tracked.panicked then tracked else Drain(Reschedule(tracked, id, FreshData))
  }

  // ---------------------------------------------------------------- buffer and wake-ups

  function PushNotes(w: Wire, ns: seq<Notification>): Wire {
    w.(buffer := w.buffer + ns, all := w.all + ns)
  }

  /** A wake-up that finds the channel full is dropped. */
  function Wake(w: Wire): Wire {
    if w.wakes < MAX_CHANNEL_CAPACITY then w.(wakes := w.wakes + 1) else w
  }

  function AckNotes(acks: seq<Ack>): (r: seq<Notification>)
    ensures |r| == |acks|
    ensures forall k :: 0 <= k < |r| ==> r[k] == DeviceAck(acks[k])
  {
    seq(|acks|, k requires 0 <= k < |acks| => DeviceAck(acks[k]))
  }

  function ForwardNotes(fs: seq<Forward>): (r: seq<Notification>)
    ensures |r| == |fs|
    ensures forall k :: 0 <= k < |r| ==> r[k] == Forwarded(fs[k])
  {
    seq(|fs|, k requires 0 <= k < |fs| => Forwarded(fs[k]))
  }

  function AckDeviceData(s: Session): Session {
    if s.committed == [] then s
    else s.(wire := Wake(PushNotes(s.wire, AckNotes(s.committed))), committed := [])
  }

  // ---------------------------------------------------------------- forwarding

  datatype ConsumeStatus = BufferFull | WindowFull | FilterCaughtup | PartialRead

  /** The retained messages as forwards: they have no cursor. */
  function RetainedForwards(ps: seq<Publish>, f: FilterIdx, qos: QoS): (r: seq<Forward>)
    ensures |r| == |ps|
    ensures forall k :: 0 <= k < |r| ==> r[k] == Forward(f, None, ps[k].(qos := qos))
  {
    seq(|ps|, k requires 0 <= k < |ps| => Forward(f, None, ps[k].(qos := qos)))
  }

  function LogForwards(items: seq<Entry>, f: FilterIdx, qos: QoS): (r: seq<Forward>)
    ensures |r| == |items|
    ensures forall k :: 0 <= k < |r| ==> r[k] == Forward(f, Some(items[k].1), items[k].0.(qos := qos))
  {
    seq(|items|, k requires 0 <= k < |items| => Forward(f, Some(items[k].1), items[k].0.(qos := qos)))
  }

  function Take(ps: seq<Publish>, n: nat): seq<Publish> { if |ps| <= n then ps else ps[..n] }

  /** What a request may still read: the free window slots, or the configured limit for QoS 0. */
  function Slots(s: Session, r: DataRequest, cfg: Config): int {
    if r.qos.AtMostOnce? then cfg.maxOutgoing else FreeSlots(s.out)
  }

  /** The retained messages a request is owed, as many as fit. */
  function OwedRetained(store: Store, r: DataRequest, slots: nat): seq<Publish> {
    if r.forwardRetained then Take(RetainedFor(store.retained, r.filter), slots) else []
  }

  /** What one read of a request gives: where the log stands, the request after it, and the publishes
      to forward, retained messages first. */
  function ReadRequest(r: DataRequest, store: Store, slots: nat): (Position, DataRequest, seq<Forward>)
    requires r.filterIdx < |store.logs|
  {
    var owed := OwedRetained(store, r, slots);
    var (pos, items) := ReadV(store.logs[r.filterIdx].log, r.cursor, slots - |owed|);
    var publishes := RetainedForwards(owed, r.filterIdx, r.qos) + LogForwards(items, r.filterIdx, r.qos);
    (pos, r.(readCount := r.readCount + |publishes|, cursor := pos.end, forwardRetained := false), publishes)
  }

  /** Puts forwards in the buffer of the link, and a request to be unscheduled after them if the buffer
      is full; the second result says so. */
  function Deliver(s: Session, publishes: seq<Forward>, qos: QoS): (Session, bool) {
    var (out, forwards) := PushForwards(s.out, publishes, qos);
    var full := |s.wire.buffer| + |forwards| >= MAX_CHANNEL_CAPACITY - 1;
    var notes := ForwardNotes(forwards) + if full then [Unschedule] else [];
    (s.(out := out, wire := Wake(PushNotes(s.wire, notes))), full)
  }

  /** What a read of a request misses: the log positions that were dropped before it came to them. */
  function MissedBy(r: DataRequest, log: LaidLog): set<(FilterIdx, nat)> {
    set p | p in LogReader.Behind(log, r.cursor) :: (r.filterIdx, p)
  }

  /** Notes down what a read has missed. */
  function Noted(s: Session, missed: set<(FilterIdx, nat)>): Session {
    s.(out := s.out.(ledger := s.out.ledger.(missed := s.out.ledger.missed + missed)))
  }

  /** Forwarding panics when it is to read the retained messages, and one of their topics cannot be
      compared. */
  predicate ForwardFails(s: Session, r: DataRequest, store: Store) {
    (r.qos.AtMostOnce? || FreeSlots(s.out) != 0) && r.forwardRetained && RetainedFails(store.retained)
  }

  function ForwardData(s: Session, r: DataRequest, store: Store, cfg: Config)
    : (Session, DataRequest, ConsumeStatus)
    requires r.filterIdx < |store.logs| && |s.out.inflight| <= MAX_INFLIGHT
  {
    var slots := Slots(s, r, cfg);
    if !r.qos.AtMostOnce? && slots == 0 then (s, r, WindowFull)
    else
      var (pos, r', publishes) := ReadRequest(r, store, slots);
      var noted := Noted(s, MissedBy(r, store.logs[r.filterIdx].log));
      if publishes == [] then (noted, r', FilterCaughtup)
      else
        var (s', full) := Deliver(noted, publishes, r.qos);
        (s', r', if full then BufferFull else if pos.Done? then FilterCaughtup else PartialRead)
  }

  function Park(st: State, id: ConnectionId, r: DataRequest): State
    requires r.filterIdx < |st.store.logs|
  {
    var d := st.store.logs[r.filterIdx];
    st.(store := st.store.(logs := st.store.logs[r.filterIdx := d.(waiters := d.waiters + [(id, r)])]))
  }

  // ---------------------------------------------------------------- consuming

  /** One request of the polled connection: the first in its tracker is read, and goes back to the end
      of the tracker or to the waiters of its log.  The second result says whether to go on. */
  function ConsumeOne(st: State, id: ConnectionId): (State, bool) {
    if id !in st.sess then (Panic(st), false)
    else
      var s := st.sess[id];
      if s.reqs == [] then (Pause(st, id, Caughtup), false)
      else
        var r := s.reqs[0];
        if r.filterIdx >= |st.store.logs| || |s.out.inflight| > MAX_INFLIGHT then (Panic(st), false)
        else if ForwardFails(s, r, st.store) then (Panic(st), false)
        else
          var (s', r', status) := ForwardData(s, r, st.store, st.cfg);
          var back := With(st, id, s'.(reqs := s.reqs[1..] + [r']));
          match status
          case BufferFull => (Pause(back, id, Busy), false)
          case WindowFull => (Pause(back, id, InflightFull), false)
          case FilterCaughtup => (Park(With(st, id, s'.(reqs := s.reqs[1..])), id, r'), true)
          case PartialRead => (back, true)
  }

  function ConsumeLoop(st: State, id: ConnectionId, n: nat): State
    decreases n
  {
    if n == 0 then st
    else
      var (next, goOn) := ConsumeOne(st, id);
      if goOn then ConsumeLoop(next, id, n - 1) else next
  }

  /** Polls the ready queue once.  The id of a removed connection is taken out of the queue. */
  function Consume(st: State): State {
    if st.ready == [] then st
    else
      var id := st.ready[0];
      if id !in st.sess then st.(ready := st.ready[1..])
      else
        var polled := st.(ready := st.ready[1..] + [id]);
        ConsumeLoop(With(polled, id, AckDeviceData(st.sess[id])), id, MAX_SCHEDULE_ITERATIONS)
  }

  // ---------------------------------------------------------------- publishing

  /** A publish is retained before its topic is looked up, and so also when that panics. */
  function AppendToCommitlog(st: State, p: Publish): (r: State)
    ensures r == st.(store := r.store, notes := r.notes, panicked := r.panicked)
  {
    if LookupFails(st.store, p.topic) then Panic(st.(store := UpdateRetained(st.store, p)))
    else
      var (store, woken) := Accept(st.store, p);
      st.(store := store, notes := st.notes + woken)
  }

  // ---------------------------------------------------------------- subscribing

  const SHARE: Text := [36, 115, 104, 97, 114, 101]  // "$share"

  predicate SubscriptionRefused(f: SubscribeFilter) {
    (StartsWithDollar(f.path) && !(SHARE <= f.path)) || !f.allowed
  }

  /** The filter names a shared subscription: these are not modelled. */
  predicate NamesGroup(path: Text) {
    SHARE + [SLASH] <= path && SLASH in path[|SHARE| + 1..]
  }

  function PrepareFilter(st: State, id: ConnectionId, f: SubscribeFilter, idx: FilterIdx, cursor: Cursor): State
    requires id in st.sess
  {
    var s := st.sess[id];
    var ids := if f.path in st.subMap then st.subMap[f.path] else {};
    var st' := st.(subMap := st.subMap[f.path := ids + {id}]);
    if f.path in s.subs then st'
    else
      var r := DataRequest(f.path, idx, f.qos, cursor, 0, true);
      var o := Origin(cursor.1, |st.store.accepted|, cursor.1, |s.out.sent|, true);
      Reschedule(Track(With(st', id, s.(subs := s.subs + {f.path}, origin := s.origin[f.path := o])), id, r),
                 id, NewFilter)
  }

  /** The filters of one packet, up to the first that is refused. */
  function SubscribeAll(st: State, id: ConnectionId, fs: seq<SubscribeFilter>, codes: seq<QoS>)
    : (State, seq<QoS>, bool)
    decreases |fs|
  {
    if fs == [] then (st, codes, false)
    else if id !in st.sess then (Panic(st), codes, true)
    else if SubscriptionRefused(fs[0]) then (st, codes, true)
    else
      var (store, idx, cursor) := NextNativeOffset(st.store, fs[0].path);
      SubscribeAll(PrepareFilter(st.(store := store), id, fs[0], idx, cursor), id, fs[1..], codes + [fs[0].qos])
  }

  // ---------------------------------------------------------------- waiters

  function FirstWaiter(ws: seq<Waiter>, id: ConnectionId): (i: nat)
    ensures i <= |ws|
    ensures i < |ws| ==> ws[i].0 == id
    ensures forall k :: 0 <= k < i ==> ws[k].0 != id
  {
    if ws == [] then 0 else if ws[0].0 == id then 0 else 1 + FirstWaiter(ws[1..], id)
  }

  /** Takes out one element and moves the last one into its place. */
  function SwapRemove(ws: seq<Waiter>, i: nat): (r: seq<Waiter>)
    requires i < |ws|
    ensures |r| == |ws| - 1
  {
    ws[i := ws[|ws| - 1]][..|ws| - 1]
  }

  /** Removes every waiter of a connection, one by one, and returns their requests in that order. */
  function RemoveWaiters(ws: seq<Waiter>, id: ConnectionId): (seq<Waiter>, seq<DataRequest>)
    decreases |ws|
  {
    var i := FirstWaiter(ws, id);
    if i == |ws| then (ws, [])
    else
      var (rest, reqs) := RemoveWaiters(SwapRemove(ws, i), id);
      (rest, [ws[i].1] + reqs)
  }

  /** Removes the waiters of a connection from every log. */
  function CleanLogs(logs: seq<Data>, id: ConnectionId): (r: (seq<Data>, seq<DataRequest>))
    ensures |r.0| == |logs|
  {
    if logs == [] then ([], [])
    else
      var d := logs[0];
      var (ws, reqs) := RemoveWaiters(d.waiters, id);
      var (rest, more) := CleanLogs(logs[1..], id);
      ([d.(waiters := ws)] + rest, reqs + more)
  }

  function RemoveWaiterOf(store: Store, id: ConnectionId, filter: Text): Store {
    if filter !in store.index then store
    else
      var d := store.logs[store.index[filter]];
      var i := FirstWaiter(d.waiters, id);
      if i == |d.waiters| then store
      else store.(logs := store.logs[store.index[filter] := d.(waiters := SwapRemove(d.waiters, i))])
  }

  // ---------------------------------------------------------------- unsubscribing

  function Without(reqs: seq<DataRequest>, filter: Text): seq<DataRequest> {
    if reqs == [] then []
    else if reqs[0].filter == filter then Without(reqs[1..], filter)
    else [reqs[0]] + Without(reqs[1..], filter)
  }

  /** A filter is unsubscribed only if the subscription map knows this connection; the second result
      says whether an acknowledgement was made. */
  function UnsubscribeOne(st: State, id: ConnectionId, pkid: PacketId, filter: Text): (State, bool) {
    if id !in st.sess then (Panic(st), false)
    else if filter !in st.subMap || id !in st.subMap[filter] then (st, false)
    else
      var s := st.sess[id];
      var st' := st.(subMap := st.subMap[filter := st.subMap[filter] - {id}]);
      if filter !in s.subs then (st', false)
      else
        var s' := s.(subs := s.subs - {filter}, committed := s.committed + [UnsubAck(pkid)],
                     reqs := Without(s.reqs, filter));
        (With(st', id, s').(store := RemoveWaiterOf(st.store, id, filter)), true)
  }

  function UnsubscribeAll(st: State, id: ConnectionId, pkid: PacketId, filters: seq<Text>, acked: bool): (State, bool)
    decreases |filters|
  {
    if filters == [] then (st, acked)
    else
      var (st', did) := UnsubscribeOne(st, id, pkid, filters[0]);
      UnsubscribeAll(st', id, pkid, filters[1..], acked || did)
  }

  // ---------------------------------------------------------------- incoming packets

  /** How a batch of packets stands: the flags the handler keeps, and whether it has stopped. */
  datatype Batch = Batch(st: State, forceAck: bool, newData: bool, disconnect: bool, stopped: bool)

  function Commit(st: State, id: ConnectionId, ack: Ack): State
    requires id in st.sess
  {
    With(st, id, st.sess[id].(committed := st.sess[id].committed + [ack]))
  }

  function Stop(b: Batch): Batch { b.(disconnect := true, stopped := true) }

  function Published(b: Batch, p: Publish, allowed: bool): Batch {
    if !allowed then Stop(b)
    else
      var st := AppendToCommitlog(b.st, p);
      if st.panicked then Stop(b.(st := st)) else b.(st := st, newData := true)
  }

  function Acknowledged(b: Batch, id: ConnectionId, pkid: PacketId, rec: bool): Batch
    requires id in b.st.sess
  {
    var s := b.st.sess[id];
    var (out, ok) := RegisterAck(s.out, pkid);
    if !ok then Stop(b.(st := With(b.st, id, s.(out := out))))
    else
      var s' := if rec then s.(out := RegisterPubrec(out, pkid), committed := s.committed + [PubRel(pkid)])
                else s.(out := out);
      b.(st := Reschedule(With(b.st, id, s'), id, IncomingAck))
  }

  function OnPacket(b: Batch, id: ConnectionId, packet: Packet): Batch {
    if id !in b.st.sess then Stop(b.(st := Panic(b.st)))
    else
      var s := b.st.sess[id];
      match packet
      case PublishPacket(p, allowed) =>
        (match p.qos
         case AtMostOnce => Published(b, p, allowed)
         case AtLeastOnce => Published(b.(st := Commit(b.st, id, PubAck(p.pkid)), forceAck := true), p, allowed)
         case ExactlyOnce =>
           var s' := s.(committed := s.committed + [PubRec(p.pkid)], recorded := s.recorded + [p]);
           b.(st := With(b.st, id, s'), forceAck := true))
      case SubscribePacket(pkid, filters) =>
        var (st, codes, refused) := SubscribeAll(b.st, id, filters, []);
        if id !in st.sess then Stop(b.(st := Panic(st)))
        else b.(st := Commit(st, id, SubAck(pkid, codes)), forceAck := true, disconnect := b.disconnect || refused)
      case UnsubscribePacket(pkid, filters) =>
        var (st, acked) := UnsubscribeAll(b.st, id, pkid, filters, false);
        b.(st := st, forceAck := b.forceAck || acked)
      case PubAckPacket(pkid) => Acknowledged(b, id, pkid, false)
      case PubRecPacket(pkid) => Acknowledged(b, id, pkid, true)
      case PubRelPacket(pkid, allowed) =>
        var committed := s.committed + [PubComp(pkid)];
        if s.recorded == [] then Stop(b.(st := With(b.st, id, s.(committed := committed))))
        else
          var p := s.recorded[0];
          var s' := s.(committed := committed, recorded := s.recorded[1..]);
          var b' := Published(b.(st := With(b.st, id, s')), p, allowed);
          if !allowed || b'.st.panicked then b' else b'.(st := Reschedule(b'.st, id, IncomingAck))
      case PubCompPacket(pkid) =>
        var (out, ok) := RegisterPubcomp(s.out, pkid);
        var b' := b.(st := With(b.st, id, s.(out := out)));
        if ok then b' else Stop(b')
      case PingReqPacket => b.(st := Commit(b.st, id, PingResp), forceAck := true)
      case DisconnectPacket => Stop(b.(st := b.st.(wills := b.st.wills - {s.client})))
      case OtherPacket => b
  }

  function OnPackets(b: Batch, id: ConnectionId, packets: seq<Packet>): Batch
    decreases |packets|
  {
    if packets == [] || b.stopped then b
    else OnPackets(OnPacket(b, id, packets[0]), id, packets[1..])
  }

  /** What follows the packets, if none of them made the router panic: the flags are acted on in this
      order. */
  function FinishBatch(b: Batch, id: ConnectionId): State {
    if b.st.panicked then b.st
    else
      var acked := if b.forceAck then Reschedule(b.st, id, FreshData) else b.st;
      var woken := if b.newData then Drain(acked) else acked;
      if b.disconnect then HandleDisconnection(woken, id) else woken
  }

  function HandleDevicePayload(st: State, id: ConnectionId, packets: seq<Packet>): State {
    if id !in st.sess then st
    else FinishBatch(OnPackets(Batch(st, false, false, false, false), id, packets), id)
  }

  // ---------------------------------------------------------------- sessions

  /** Requests go back to the oldest unacknowledged position of their filter. */
  function Rewind(reqs: seq<DataRequest>, inflight: seq<Inflight>): (r: seq<DataRequest>)
    ensures |r| == |reqs|
    ensures forall k :: 0 <= k < |r| ==> r[k] == RewindOne(reqs[k], inflight)
  {
    seq(|reqs|, k requires 0 <= k < |reqs| => RewindOne(reqs[k], inflight))
  }

  function RewindOne(r: DataRequest, inflight: seq<Inflight>): DataRequest {
    match Retransmission(inflight, r.filterIdx)
    case Some(cursor) => r.(cursor := cursor)
    case None => r
  }

  /** The resumed session starts where its requests stand. */
  function Restarted(origin: map<Text, Origin>, reqs: seq<DataRequest>): map<Text, Origin> {
    if reqs == [] then origin
    else
      var r := reqs[|reqs| - 1];
      var o := Restarted(origin, reqs[..|reqs| - 1]);
      if r.filter in o then
        o[r.filter := o[r.filter].(start := r.cursor.1, mark := 0, owed := r.forwardRetained)]
      else o
  }

  function SaveState(s: Session, parked: seq<DataRequest>): Saved {
    var reqs := Rewind(s.reqs + parked, s.out.inflight);
    Saved(s.subs, Restarted(s.origin, reqs), reqs, s.out.unackedPubrels, s.out.ledger)
  }

  function ForgetId(subMap: map<Text, set<ConnectionId>>, subs: set<Text>,
                    id: ConnectionId): map<Text, set<ConnectionId>> {
    map f | f in subMap :: if f in subs then subMap[f] - {id} else subMap[f]
  }

  function HandleDisconnection(st: State, id: ConnectionId): State {
    if id !in st.sess then st
    else
      var s := st.sess[id];
      var (logs, parked) := CleanLogs(st.store.logs, id);
      st.(sess := st.sess - {id},
          byClient := st.byClient - {s.client},
          store := st.store.(logs := logs),
          subMap := ForgetId(st.subMap, s.subs, id),
          grave := if s.clean then st.grave - {s.client} else st.grave[s.client := SaveState(s, parked)])
  }

  /** "+$#/" */
  predicate ValidClientId(client: Text) {
    PLUS_SIGN !in client && DOLLAR !in client && HASH_SIGN !in client && SLASH !in client
  }

  function PubRels(pkids: seq<PacketId>): (r: seq<Ack>)
    ensures |r| == |pkids|
  {
    seq(|pkids|, k requires 0 <= k < |pkids| => PubRel(pkids[k]))
  }

  function NewSession(client: Text, clean: bool, saved: Option<Saved>): Session {
    var wire := Wire([], 0, Building, [], 0, 0);
    match if clean then None else saved
    case None =>
      Session(client, clean, {}, map[], [], Paused(Busy), EmptyOut([], NO_LEDGER), wire,
              [ConnAck(!clean && saved.Some?)], [])
    case Some(v) =>
      Session(client, clean, v.subs, v.origin, v.reqs, Paused(Busy),
              EmptyOut(v.unackedPubrels, v.ledger), wire,
              [ConnAck(true)] + PubRels(v.unackedPubrels), [])
  }

  /** The previous connection of the client, if any, is dropped before the new one is looked at. */
  function Replaced(st: State, client: Text): State {
    if client in st.byClient then HandleDisconnection(st, st.byClient[client]) else st
  }

  /** The session of a client that is let in: its saved one, if it has one and wants it. */
  function Let(st: State, client: Text, clean: bool): Session {
    NewSession(client, clean, if client in st.grave then Some(st.grave[client]) else None)
  }

  /** A connection is let in under a vacant key and scheduled at once. */
  function Admit(st: State, vacant: ConnectionId, s: Session, wills: map<Text, Publish>): State {
    Reschedule(With(st, vacant, s).(grave := st.grave - {s.client}, byClient := st.byClient[s.client := vacant],
                                    wills := wills), vacant, Init)
  }

  function WillsWith(st: State, client: Text, will: Option<Publish>): map<Text, Publish> {
    if will.Some? then st.wills[client := will.value] else st.wills
  }

  function LetIn(st: State, vacant: ConnectionId, client: Text, clean: bool, will: Option<Publish>): State {
    if |st.sess| >= st.cfg.maxConnections then st
    else Admit(st, vacant, Let(st, client, clean), WillsWith(st, client, will))
  }

  /** `vacant` is the key the slabs hand out. */
  function HandleNewConnection(st: State, vacant: ConnectionId, client: Text, clean: bool, will: Option<Publish>): State
    requires vacant !in Replaced(st, client).sess
  {
    if ValidClientId(client) then LetIn(Replaced(st, client), vacant, client, clean, will) else st
  }

  function HandleLastWill(st: State, client: Text): State {
    if client !in st.wills then st
    else
      var st' := AppendToCommitlog(st.(wills := st.wills - {client}), st.wills[client]);
      if st'.panicked then st' else Drain(st')
  }

  // ---------------------------------------------------------------- steps

  function HandleEvent(st: State, id: ConnectionId, vacant: ConnectionId, e: Event): State
    requires e.Connect? ==> vacant !in Replaced(st, e.client).sess
  {
    match e
    case Connect(client, clean, will) => HandleNewConnection(st, vacant, client, clean, will)
    case DeviceData(packets) => HandleDevicePayload(st, id, packets)
    case Disconnected => HandleDisconnection(st, id)
    case LinkReady => Reschedule(st, id, ReadyEvent)
    case PublishWill(client) => HandleLastWill(st, client)
  }
}
