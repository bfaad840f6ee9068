/** A reader that follows a commit log while it is being written. */
module LogReader {
  import opened Basics
  import opened LogSpec

  function Offsets(items: seq<Entry>): (r: seq<nat>)
    ensures |r| == |items|
    ensures forall k :: 0 <= k < |r| ==> r[k] == items[k].1.1
  {
    seq(|items|, k requires 0 <= k < |items| => items[k].1.1)
  }

  /** Every entry carries the item that was appended at its offset. */
  ghost predicate Faithful(items: seq<Entry>, hist: seq<Publish>) {
    forall k :: 0 <= k < |items| ==> items[k].1.1 < |hist| && items[k].0 == hist[items[k].1.1]
  }

  ghost predicate Ascending(offsets: seq<nat>) {
    forall i, j :: 0 <= i < j < |offsets| ==> offsets[i] < offsets[j]
  }

  function Range(lo: nat, hi: nat): (r: set<nat>)
    ensures forall o: nat :: o in r <==> lo <= o < hi
    decreases hi - lo
  {
    if lo >= hi then {} else {lo} + Range(lo + 1, hi)
  }

  /** `offsets` is what a reader that started at `start` and now stands at `end` has been given: in order,
      without repetition, everything but what it has missed. */
  ghost predicate Delivered(start: nat, end: nat, missed: set<nat>, offsets: seq<nat>) {
    && start <= end
    && Ascending(offsets)
    && (forall o :: o in offsets <==> start <= o < end && o !in missed)
  }

  /** Whatever has been missed was dropped before it was read. */
  ghost predicate Gone(log: Log, missed: set<nat>)
    requires log.segs != []
  {
    forall o :: o in missed ==> o < log.HeadOffset()
  }

  /** What a read misses: the positions between its cursor and the head of the log, if that is ahead. */
  function Behind(log: Log, cursor: Cursor): set<nat>
    requires log.segs != []
  {
    Range(cursor.1, log.HeadOffset())
  }

  /** Reading on from the cursor extends what has been delivered. */
  lemma ReadDelivers(log: Log, hist: seq<Publish>, start: nat, cursor: Cursor, missed: set<nat>, offsets: seq<nat>,
                     len: nat)
    requires Holds(log, hist) && ValidCursor(log, cursor)
    requires Delivered(start, cursor.1, missed, offsets) && Gone(log, missed)
    ensures var (pos, items) := ReadV(log, cursor, len);
            && ValidCursor(log, pos.end)
            && Delivered(start, pos.end.1, missed + Behind(log, cursor), offsets + Offsets(items))
            && Gone(log, missed + Behind(log, cursor))
            && Faithful(items, hist)
  {
    ValidCursorResumes(log, hist, cursor);
    ReadVRefinesHistory(log, hist, cursor, len);
    var (pos, items) := ReadV(log, cursor, len);
    DeliveredGrows(log, start, cursor, missed, offsets, pos.end, Offsets(items));
  }

  lemma DeliveredGrows(log: Log, start: nat, cursor: Cursor, missed: set<nat>, offsets: seq<nat>, end: Cursor,
                       added: seq<nat>)
    requires log.segs != [] && Delivered(start, cursor.1, missed, offsets) && Gone(log, missed)
    requires end.1 == Max(cursor.1, log.HeadOffset()) + |added|
    requires forall k :: 0 <= k < |added| ==> added[k] == Max(cursor.1, log.HeadOffset()) + k
    ensures Delivered(start, end.1, missed + Behind(log, cursor), offsets + added)
  {
    var from := Max(cursor.1, log.HeadOffset());
    var all, gone := offsets + added, missed + Behind(log, cursor);
    forall o ensures o in all <==> start <= o < end.1 && o !in gone {
      assert o in all <==> o in offsets || o in added;
      if from <= o < end.1 {
        assert added[o - from] == o;
      }
    }
    AscendingJoin(offsets, added, cursor.1);
  }

  lemma AscendingJoin(a: seq<nat>, b: seq<nat>, mid: nat)
    requires Ascending(a) && Ascending(b)
    requires (forall o :: o in a ==> o < mid) && (forall o :: o in b ==> mid <= o)
    ensures Ascending(a + b)
  {
    var all := a + b;
    forall i, j | 0 <= i < j < |all| ensures all[i] < all[j] {
      if i < |a| <= j {
        assert all[i] in a && all[j] in b;
      }
    }
  }

  /** With nothing missed, what has been delivered is exactly the range read so far. */
  lemma NothingMissed(start: nat, end: nat, missed: set<nat>, offsets: seq<nat>)
    requires Delivered(start, end, missed, offsets) && forall o :: start <= o < end ==> o !in missed
    ensures |offsets| == end - start
    ensures forall k :: 0 <= k < |offsets| ==> offsets[k] == start + k
  {
    AscendingIsRange(offsets, start, end);
  }

  lemma {:induction false} AscendingIsRange(offsets: seq<nat>, lo: nat, hi: nat)
    requires lo <= hi && Ascending(offsets)
    requires forall o :: o in offsets ==> lo <= o < hi
    requires forall o :: lo <= o < hi ==> o in offsets
    ensures |offsets| == hi - lo
    ensures forall k :: 0 <= k < |offsets| ==> offsets[k] == lo + k
    decreases hi - lo
  {
    assert offsets != [] ==> offsets[0] in offsets;
    if lo < hi {
      assert lo in offsets;
      var i :| 0 <= i < |offsets| && offsets[i] == lo;
      var rest := offsets[1..];
      forall o | o in rest ensures lo + 1 <= o < hi {
        var j :| 0 <= j < |rest| && rest[j] == o;
        assert offsets[j + 1] == o && o in offsets && offsets[0] < offsets[j + 1];
      }
      forall o | lo + 1 <= o < hi ensures o in rest {
        assert o in offsets;
        var j :| 0 <= j < |offsets| && offsets[j] == o;
        assert rest[j - 1] == o;
      }
      AscendingIsRange(rest, lo + 1, hi);
      assert forall k :: 1 <= k < |offsets| ==> offsets[k] == rest[k - 1];
    }
  }

  // ---------------------------------------------------------------- interleavings

  datatype Op = Put(p: Publish) | Get(len: nat)

  /** The log with everything ever appended to it, and one reader: where it started, its cursor, what it
      has been given, and what was gone when it came to read it. */
  datatype Follower = Follower(
    log: Log, hist: seq<Publish>, start: nat, cursor: Cursor, got: seq<Entry>, missed: set<nat>)

  ghost predicate Follows(f: Follower) {
    && Holds(f.log, f.hist)
    && ValidCursor(f.log, f.cursor)
    && Delivered(f.start, f.cursor.1, f.missed, Offsets(f.got))
    && Gone(f.log, f.missed)
    && Faithful(f.got, f.hist)
  }

  function Begin(log: Log, hist: seq<Publish>): Follower
    requires log.segs != []
  {
    Follower(log, hist, |hist|, log.NextOffset(), [], {})
  }

  function Step(f: Follower, op: Op): Follower
    requires Layout(f.log)
  {
    match op
    case Put(p) => f.(log := Append(f.log, p), hist := f.hist + [p])
    case Get(len) =>
      var (pos, items) := ReadV(f.log, f.cursor, len);
      f.(cursor := pos.end, got := f.got + items, missed := f.missed + Behind(f.log, f.cursor))
  }

  lemma PutFollows(f: Follower, p: Publish)
    requires Follows(f)
    ensures Follows(Step(f, Put(p)))
  {
    AppendHolds(f.log, f.hist, p);
    AppendKeepsCursors(f.log, f.hist, p, f.cursor);
  }

  lemma GetFollows(f: Follower, len: nat)
    requires Follows(f)
    ensures Follows(Step(f, Get(len)))
  {
    ReadDelivers(f.log, f.hist, f.start, f.cursor, f.missed, Offsets(f.got), len);
    var r := ReadV(f.log, f.cursor, len);
    GivenFollows(f, r.0.end, r.1);
  }

  lemma GivenFollows(f: Follower, end: Cursor, items: seq<Entry>)
    requires Follows(f) && ValidCursor(f.log, end) && Faithful(items, f.hist)
    requires var missed := f.missed + Behind(f.log, f.cursor);
             Delivered(f.start, end.1, missed, Offsets(f.got) + Offsets(items)) && Gone(f.log, missed)
    ensures Follows(f.(cursor := end, got := f.got + items, missed := f.missed + Behind(f.log, f.cursor)))
  {
    assert Offsets(f.got + items) == Offsets(f.got) + Offsets(items);
  }

  lemma StepFollows(f: Follower, op: Op)
    requires Follows(f)
    ensures Follows(Step(f, op)) && Step(f, op).start == f.start
  {
    match op
    case Put(p) => PutFollows(f, p);
    case Get(len) => GetFollows(f, len);
  }

  ghost predicate RunsTo(f: Follower, ops: seq<Op>, g: Follower)
    decreases |ops|
  {
    if ops == [] then f == g
    else Layout(f.log) && RunsTo(Step(f, ops[0]), ops[1..], g)
  }

  /** For every interleaving of appends and reads, segment rolls and drops included, the reader is
      given strictly increasing offsets, each with the item that was appended there, and all of them but
      those that were dropped before it came to read them. */
  lemma {:induction false} EveryInterleavingFollows(f: Follower, ops: seq<Op>, g: Follower)
    requires Follows(f) && RunsTo(f, ops, g)
    ensures Follows(g) && g.start == f.start
    decreases |ops|
  {
    if ops != [] {
      StepFollows(f, ops[0]);
      EveryInterleavingFollows(Step(f, ops[0]), ops[1..], g);
    }
  }

  lemma BeginFollows(log: Log, hist: seq<Publish>)
    requires Holds(log, hist)
    ensures Follows(Begin(log, hist))
  {
    NextOffsetIsValid(log, hist);
  }

  /** Whether one of the reads of `lens`, made one after the other, answers Done. */
  ghost predicate ReachesDone(log: Log, cursor: Cursor, lens: seq<nat>)
    requires Layout(log)
    decreases |lens|
  {
    lens != [] &&
    var pos := ReadV(log, cursor, lens[0]).0;
    pos.Done? || ReachesDone(log, pos.end, lens[1..])
  }

  /** Once appends stop, reads of at least one item reach the end within as many reads as there are
      items left. */
  lemma {:induction false} DrainsInTime(log: Log, hist: seq<Publish>, cursor: Cursor, lens: seq<nat>)
    requires Holds(log, hist) && ValidCursor(log, cursor)
    requires forall k :: 0 <= k < |lens| ==> lens[k] >= 1
    requires |lens| >= 1 && |lens| >= |hist| - Max(cursor.1, log.HeadOffset())
    ensures ReachesDone(log, cursor, lens)
    decreases |lens|
  {
    ValidCursorResumes(log, hist, cursor);
    ReadVRefinesHistory(log, hist, cursor, lens[0]);
    var pos := ReadV(log, cursor, lens[0]).0;
    if !pos.Done? {
      ValidCursorResumes(log, hist, pos.end);
      DrainsInTime(log, hist, pos.end, lens[1..]);
    }
  }
}
