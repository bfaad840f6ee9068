/** The segmented commit log as a value: what each operation of `CommitLog` computes. */
module LogSpec {
  import opened Basics

  /** A segment: its items, their total size in bytes, and the absolute offset of the first one. */
  datatype Seg = Seg(data: seq<Publish>, totalSize: nat, base: nat) {
    function Next(): nat { base + |data| }
  }

  /** `segs[i]` is segment number `head + i`; the last one is the active segment, number `tail`. */
  datatype Log = Log(head: nat, tail: nat, maxSegmentSize: nat, maxSegments: nat, segs: seq<Seg>) {
    function Active(): Seg
      requires segs != []
    {
      segs[|segs| - 1]
    }

    function NextOffset(): Cursor
      requires segs != []
    {
      (tail, Active().Next())
    }

    /** Absolute offset of the oldest item still in memory. */
    function HeadOffset(): nat
      requires segs != []
    {
      segs[0].base
    }
  }

  datatype Position = Next(start: Cursor, end: Cursor) | Done(start: Cursor, end: Cursor)

  type Entry = (Publish, Cursor)

  function ItemSize(p: Publish): nat { 4 + |p.topic| + |p.payload| }

  function SumSizes(data: seq<Publish>): nat {
    if data == [] then 0 else SumSizes(data[..|data| - 1]) + ItemSize(data[|data| - 1])
  }

  // ---------------------------------------------------------------- appending

  function Empty(maxSegmentSize: nat, maxSegments: nat): Log {
    Log(0, 0, maxSegmentSize, maxSegments, [Seg([], 0, 0)])
  }

  function Push(g: Seg, p: Publish): Seg {
    Seg(g.data + [p], g.totalSize + ItemSize(p), g.base)
  }

  function ApplyRetention(log: Log): Log
    requires log.segs != []
  {
    if log.Active().totalSize >= log.maxSegmentSize then
      var kept := if |log.segs| >= log.maxSegments
                  then log.(segs := log.segs[1..], head := log.head + 1) else log;
      kept.(segs := kept.segs + [Seg([], 0, log.Active().Next())], tail := kept.tail + 1)
    else
      log
  }

  function Append(log: Log, p: Publish): Log
    requires log.segs != []
  {
    var l := ApplyRetention(log);
    l.(segs := l.segs[|l.segs| - 1 := Push(l.Active(), p)])
  }

  // ---------------------------------------------------------------- shape

  /** The invariant of the log: between one and `maxSegments` segments with consecutive numbers and
      abutting offsets, sizes accounted for, only the very first segment may be empty, and no segment
      exceeds the size limit by more than its last item.  A segment is closed only when it has reached the
      limit, and one has been dropped only if there are as many as there may be. */
  ghost predicate Shape(log: Log) {
    && Layout(log)
    && |log.segs| <= log.maxSegments && (log.head > 0 ==> |log.segs| == log.maxSegments)
    && (forall i :: 0 <= i < |log.segs| ==> SegShape(log.segs[i], log.maxSegmentSize))
    && forall i :: 0 <= i < |log.segs| - 1 ==> Closed(log.segs[i], log.maxSegmentSize)
  }

  predicate Closed(g: Seg, limit: nat) { g.totalSize >= limit }

  /** The part of the shape that reading relies on. */
  ghost predicate Layout(log: Log) {
    && 1 <= |log.segs| == log.tail - log.head + 1
    && 1 <= log.maxSegmentSize
    && Abut(log.segs)
    && (log.tail > 0 ==> forall i :: 0 <= i < |log.segs| ==> |log.segs[i].data| > 0)
    && (log.head == 0 ==> log.segs[0].base == 0)
    && (|log.Active().data| == 0 ==> log.Active().totalSize == 0)
  }

  ghost predicate Abut(segs: seq<Seg>) {
    forall i :: 0 < i < |segs| ==> Joined(segs, i)
  }

  ghost predicate Joined(segs: seq<Seg>, i: nat)
    requires 0 < i < |segs|
  {
    segs[i].base == segs[i - 1].Next()
  }

  ghost predicate SegShape(g: Seg, limit: nat) {
    && g.totalSize == SumSizes(g.data)
    && (|g.data| > 0 ==> g.totalSize - ItemSize(g.data[|g.data| - 1]) < limit)
  }

  /** `log` retains exactly the end of `hist`, the sequence of everything ever appended to it. */
  ghost predicate Holds(log: Log, hist: seq<Publish>) {
    && Layout(log)
    && log.Active().Next() == |hist|
    && (forall i :: 0 <= i < |log.segs| ==> SegHolds(log.segs[i], hist))
  }

  ghost predicate SegHolds(g: Seg, hist: seq<Publish>) {
    g.Next() <= |hist| && forall k :: 0 <= k < |g.data| ==> g.data[k] == hist[g.base + k]
  }

  lemma SegmentsAscend(log: Log, i: nat, j: nat)
    requires Layout(log) && i <= j < |log.segs|
    ensures log.segs[i].base <= log.segs[j].base
    ensures i < j ==> log.segs[i].Next() <= log.segs[j].base
    decreases j
  {
    if i < j {
      assert Joined(log.segs, j);
      SegmentsAscend(log, i, j - 1);
    }
  }

  lemma EmptyHolds(maxSegmentSize: nat, maxSegments: nat)
    requires maxSegmentSize >= 1 && maxSegments >= 1
    ensures Holds(Empty(maxSegmentSize, maxSegments), []) && Shape(Empty(maxSegmentSize, maxSegments))
  {
  }

  /** The state between retention and push: like `Holds`, but the active segment may be empty and has
      room for another item. */
  ghost predicate Roomy(l: Log, hist: seq<Publish>) {
    && 1 <= |l.segs| == l.tail - l.head + 1
    && 1 <= l.maxSegmentSize
    && l.Active().Next() == |hist|
    && Abut(l.segs)
    && (forall i :: 0 <= i < |l.segs| ==> SegHolds(l.segs[i], hist))
    && (forall i :: 0 <= i < |l.segs| - 1 ==> |l.segs[i].data| > 0)
    && (l.head == 0 ==> l.segs[0].base == 0)
  }

  lemma RollKeeps(log: Log, hist: seq<Publish>, d: nat)
    requires Holds(log, hist) && log.Active().totalSize >= log.maxSegmentSize
    requires d == if |log.segs| >= log.maxSegments then 1 else 0
    ensures var l := ApplyRetention(log);
            && l.segs == log.segs[d..] + [Seg([], 0, |hist|)]
            && l.head == log.head + d && l.tail == log.tail + 1
            && Roomy(l, hist)
            && log.HeadOffset() <= l.HeadOffset()
            && (d == 1 ==> l.HeadOffset() == log.segs[0].Next())
  {
    var l := ApplyRetention(log);
    assert l.segs == log.segs[d..] + [Seg([], 0, |hist|)];
    assert forall i :: 0 <= i < |l.segs| - 1 ==> l.segs[i] == log.segs[i + d];
    forall i | 0 < i < |l.segs| ensures Joined(l.segs, i) {
      if i < |l.segs| - 1 {
        assert Joined(log.segs, i + d);
      }
    }
    if d == 1 && |log.segs| > 1 {
      assert Joined(log.segs, 1) && l.segs[0] == log.segs[1];
    }
  }

  lemma RetentionKeeps(log: Log, hist: seq<Publish>)
    requires Holds(log, hist)
    ensures Roomy(ApplyRetention(log), hist)
    ensures log.HeadOffset() <= ApplyRetention(log).HeadOffset()
  {
    if log.Active().totalSize >= log.maxSegmentSize {
      RollKeeps(log, hist, if |log.segs| >= log.maxSegments then 1 else 0);
    }
  }

  lemma PushHolds(l: Log, hist: seq<Publish>, p: Publish)
    requires Roomy(l, hist)
    ensures Holds(l.(segs := l.segs[|l.segs| - 1 := Push(l.Active(), p)]), hist + [p])
  {
    var n := |l.segs| - 1;
    var g := Push(l.Active(), p);
    var l' := l.(segs := l.segs[n := g]);
    forall i | 0 <= i < n ensures SegHolds(l'.segs[i], hist + [p]) {
      assert SegHolds(l.segs[i], hist);
    }
    assert SegHolds(l.segs[n], hist);
    assert SegHolds(g, hist + [p]);
    forall i | 0 < i < |l'.segs| ensures Joined(l'.segs, i) {
      assert Joined(l.segs, i);
    }
  }

  /** Appending extends the history by one item. */
  lemma AppendHolds(log: Log, hist: seq<Publish>, p: Publish)
    requires Holds(log, hist)
    ensures Holds(Append(log, p), hist + [p])
    ensures log.HeadOffset() <= Append(log, p).HeadOffset()
  {
    RetentionKeeps(log, hist);
    PushHolds(ApplyRetention(log), hist, p);
  }

  lemma PushShape(g: Seg, p: Publish, limit: nat)
    requires SegShape(g, limit) && g.totalSize < limit
    ensures SegShape(Push(g, p), limit)
  {
    assert Push(g, p).data[..|g.data|] == g.data;
  }

  lemma RetentionShape(log: Log, hist: seq<Publish>)
    requires Shape(log) && Holds(log, hist) && log.maxSegments >= 1
    ensures var l := ApplyRetention(log);
            && 1 <= |l.segs| <= l.maxSegments == log.maxSegments
            && (l.head > 0 ==> |l.segs| == l.maxSegments)
            && l.Active().totalSize < l.maxSegmentSize == log.maxSegmentSize
            && (forall i :: 0 <= i < |l.segs| ==> SegShape(l.segs[i], l.maxSegmentSize))
            && forall i :: 0 <= i < |l.segs| - 1 ==> Closed(l.segs[i], l.maxSegmentSize)
  {
    if log.Active().totalSize >= log.maxSegmentSize {
      var d := if |log.segs| >= log.maxSegments then 1 else 0;
      RollKeeps(log, hist, d);
      var l := ApplyRetention(log);
      assert SegShape(l.Active(), l.maxSegmentSize);
      forall i | 0 <= i < |l.segs| - 1
        ensures SegShape(l.segs[i], l.maxSegmentSize) && Closed(l.segs[i], l.maxSegmentSize)
      {
        assert l.segs[i] == log.segs[i + d];
      }
    }
  }

  /** Appending keeps the shape, and with it the bound on what is held in memory. */
  lemma AppendShape(log: Log, hist: seq<Publish>, p: Publish)
    requires Shape(log) && Holds(log, hist) && log.maxSegments >= 1
    ensures Shape(Append(log, p)) && Append(log, p).maxSegments == log.maxSegments
  {
    AppendHolds(log, hist, p);
    RetentionShape(log, hist);
    PushShape(ApplyRetention(log).Active(), p, log.maxSegmentSize);
  }

  lemma SegmentsBelowActive(l: Log, i: nat)
    requires i < |l.segs|
    requires Abut(l.segs)
    ensures l.segs[i].Next() <= l.Active().Next()
    decreases |l.segs| - i
  {
    if i < |l.segs| - 1 {
      assert Joined(l.segs, i + 1);
      SegmentsBelowActive(l, i + 1);
    }
  }

  // ---------------------------------------------------------------- reading

  /** Number of the segment, at `i` or later, that holds an offset; the active one for the offset
      just after the last item. */
  function SegmentFrom(log: Log, i: nat, offset: nat): (n: nat)
    requires Layout(log) && i < |log.segs| && log.segs[i].base <= offset <= log.Active().Next()
    ensures log.head + i <= n <= log.tail
    ensures log.segs[n - log.head].base <= offset <= log.segs[n - log.head].Next()
    ensures offset < log.segs[n - log.head].Next() || (n == log.tail && offset == log.Active().Next())
    decreases |log.segs| - i
  {
    if i == |log.segs| - 1 || offset < log.segs[i].Next() then log.head + i
    else
      assert Joined(log.segs, i + 1);
      SegmentFrom(log, i + 1, offset)
  }

  /** Every offset from the head to the end of the log has one place: its segment and itself. */
  function PlaceOf(log: Log, offset: nat): (c: Cursor)
    requires Layout(log) && log.HeadOffset() <= offset <= log.Active().Next()
  {
    (SegmentFrom(log, 0, offset), offset)
  }

  function EntryAt(log: Log, offset: nat): Entry
    requires Layout(log) && log.HeadOffset() <= offset < log.Active().Next()
  {
    var c := PlaceOf(log, offset);
    var g := log.segs[c.0 - log.head];
    (g.data[offset - g.base], c)
  }

  function Entries(log: Log, from: nat, n: nat): (r: seq<Entry>)
    requires Layout(log) && log.HeadOffset() <= from && from + n <= log.Active().Next()
    ensures |r| == n
    ensures forall k :: 0 <= k < n ==> r[k] == EntryAt(log, from + k)
  {
    seq(n, k requires 0 <= k < n => EntryAt(log, from + k))
  }

  /** The cursor a read really starts from: one that points before the head, or before its segment,
      is moved forward. */
  function Clamp(log: Log, start: Cursor): Cursor
    requires Layout(log) && start.0 <= log.tail
  {
    if start.0 < log.head then (log.head, log.HeadOffset())
    else (start.0, Max(start.1, log.segs[start.0 - log.head].base))
  }

  /** The absolute offset at which a read from `start` resumes: an offset beyond a full segment means
      the beginning of the next one. */
  function From(log: Log, start: Cursor): nat
    requires Layout(log) && start.0 <= log.tail
  {
    var c := Clamp(log, start);
    if c.0 < log.tail then Min(c.1, log.segs[c.0 - log.head].Next()) else c.1
  }

  lemma FromIsRetained(log: Log, start: Cursor)
    requires Layout(log) && start.0 <= log.tail
    ensures log.HeadOffset() <= From(log, start)
    ensures Clamp(log, start).0 < log.tail ==> From(log, start) < log.Active().Next()
  {
    var i := Clamp(log, start).0 - log.head;
    SegmentsAscend(log, 0, i);
    if i < |log.segs| - 1 {
      SegmentsAscend(log, i, i + 1);
      SegmentsBelowActive(log, i + 1);
    }
  }

  /** What a read of up to `len` entries returns, said without segments: the next entries from the
      resume point, and the place just after them. */
  function ReadV(log: Log, start: Cursor, len: nat): (Position, seq<Entry>)
    requires Layout(log)
  {
    if start.0 > log.tail then (Done(start, start), [])
    else
      var c := Clamp(log, start);
      var from := From(log, start);
      var total := log.Active().Next();
      if from > total then (Done(c, c), [])
      else
        FromIsRetained(log, start);
        var n := Min(len, total - from);
        var end := PlaceOf(log, from + n);
        (if from + n == total then Done(c, end) else Next(c, end), Entries(log, from, n))
  }

  // ---------------------------------------------------------------- reading refines the flat history

  /** A cursor the log has handed out: it lies within its segment, or just after its last item, or
      points to a segment that has been dropped since. */
  ghost predicate ValidCursor(log: Log, c: Cursor)
    requires log.segs != []
  {
    && c.0 <= log.tail
    && (c.0 < log.head ==> c.1 <= log.HeadOffset())
    && (log.head <= c.0 < log.head + |log.segs| ==>
          log.segs[c.0 - log.head].base <= c.1 <= log.segs[c.0 - log.head].Next())
  }

  /** `c` is the segment and offset of an item that is still in memory. */
  ghost predicate Owns(log: Log, c: Cursor) {
    && log.head <= c.0 < log.head + |log.segs|
    && log.segs[c.0 - log.head].base <= c.1 < log.segs[c.0 - log.head].Next()
  }

  lemma OwnerIsUnique(log: Log, c: Cursor)
    requires Layout(log) && Owns(log, c)
    ensures log.HeadOffset() <= c.1 < log.Active().Next() && PlaceOf(log, c.1) == c
  {
    SegmentsAscend(log, 0, c.0 - log.head);
    SegmentsBelowActive(log, c.0 - log.head);
    var d := PlaceOf(log, c.1);
    if d.0 < c.0 {
      SegmentsAscend(log, d.0 - log.head, c.0 - log.head);
    } else if c.0 < d.0 {
      SegmentsAscend(log, c.0 - log.head, d.0 - log.head);
    }
  }

  /** `items` is the stretch of the history that starts at `from`, every item tagged with its place. */
  ghost predicate Stretch(log: Log, hist: seq<Publish>, from: nat, items: seq<Entry>) {
    && from + |items| <= |hist|
    && forall k :: 0 <= k < |items| ==>
         items[k].0 == hist[from + k] && items[k].1.1 == from + k && Owns(log, items[k].1)
  }

  lemma EntryIsHistory(log: Log, hist: seq<Publish>, offset: nat)
    requires Holds(log, hist) && log.HeadOffset() <= offset < |hist|
    ensures EntryAt(log, offset) == (hist[offset], PlaceOf(log, offset)) && Owns(log, PlaceOf(log, offset))
  {
    SegmentsBelowActive(log, PlaceOf(log, offset).0 - log.head);
    assert SegHolds(log.segs[PlaceOf(log, offset).0 - log.head], hist);
  }

  lemma EntriesAreHistory(log: Log, hist: seq<Publish>, from: nat, n: nat)
    requires Holds(log, hist) && log.HeadOffset() <= from && from + n <= |hist|
    ensures Stretch(log, hist, from, Entries(log, from, n))
  {
    forall offset | from <= offset < from + n
      ensures EntryAt(log, offset) == (hist[offset], PlaceOf(log, offset)) && Owns(log, PlaceOf(log, offset))
    {
      EntryIsHistory(log, hist, offset);
    }
  }

  /** `readv` is a read of the flat history.  From any cursor that is not past the active segment it
      returns the next `len` items, or as many as there are, from the resume point, each tagged with
      its own place; its end is a good cursor just after them; and it says Done exactly when that is
      the end of everything ever appended.  From a cursor past the log it returns nothing. */
  lemma ReadVRefinesHistory(log: Log, hist: seq<Publish>, c: Cursor, len: nat)
    requires Holds(log, hist)
    ensures c.0 > log.tail ==> ReadV(log, c, len) == (Done(c, c), [])
    ensures c.0 <= log.tail && From(log, c) > |hist| ==>
              ReadV(log, c, len) == (Done(Clamp(log, c), Clamp(log, c)), [])
    ensures c.0 <= log.tail && From(log, c) <= |hist| ==>
              var (pos, items) := ReadV(log, c, len);
              && Stretch(log, hist, From(log, c), items)
              && |items| == Min(len, |hist| - From(log, c))
              && pos.start == Clamp(log, c)
              && pos.end.1 == From(log, c) + |items|
              && ValidCursor(log, pos.end)
              && (pos.Done? <==> pos.end.1 == |hist|)
  {
    if c.0 <= log.tail && From(log, c) <= |hist| {
      FromIsRetained(log, c);
      EntriesAreHistory(log, hist, From(log, c), Min(len, |hist| - From(log, c)));
    }
  }

  /** From a cursor the log has handed out, reading resumes at its offset, or at the head if that
      offset has been dropped. */
  lemma ValidCursorResumes(log: Log, hist: seq<Publish>, c: Cursor)
    requires Holds(log, hist) && ValidCursor(log, c)
    ensures From(log, c) == Max(c.1, log.HeadOffset()) <= |hist|
    ensures c.1 <= |hist|
    ensures c.0 >= log.head ==> Clamp(log, c) == c
  {
    SegmentsBelowActive(log, 0);
    if c.0 >= log.head {
      SegmentsAscend(log, 0, c.0 - log.head);
      SegmentsBelowActive(log, c.0 - log.head);
    }
  }

  lemma NextOffsetIsValid(log: Log, hist: seq<Publish>)
    requires Holds(log, hist)
    ensures ValidCursor(log, log.NextOffset()) && log.NextOffset().1 == |hist|
  {
  }

  /** Retention only ever drops the oldest segment. */
  lemma RetentionKeepsPlaces(log: Log, hist: seq<Publish>, c: Cursor)
    requires Holds(log, hist)
    ensures ApplyRetention(log).segs != []
    ensures ValidCursor(log, c) ==> ValidCursor(ApplyRetention(log), c)
    ensures Owns(log, c) ==> Owns(ApplyRetention(log), c) || c.1 < ApplyRetention(log).HeadOffset()
  {
    if log.Active().totalSize >= log.maxSegmentSize {
      var d := if |log.segs| >= log.maxSegments then 1 else 0;
      RollKeeps(log, hist, d);
      var l := ApplyRetention(log);
      if l.head <= c.0 <= log.tail {
        assert l.segs[c.0 - l.head] == log.segs[c.0 - log.head];
      }
    }
  }

  lemma PushKeepsPlaces(l: Log, p: Publish, c: Cursor)
    requires l.segs != [] && |l.segs| == l.tail - l.head + 1
    ensures var l' := l.(segs := l.segs[|l.segs| - 1 := Push(l.Active(), p)]);
            (ValidCursor(l, c) ==> ValidCursor(l', c)) && (Owns(l, c) ==> Owns(l', c))
  {
    var l' := l.(segs := l.segs[|l.segs| - 1 := Push(l.Active(), p)]);
    if l.head <= c.0 < l.tail {
      assert l'.segs[c.0 - l.head] == l.segs[c.0 - l.head];
    }
  }

  /** A cursor stays good under appends, rolls and drops included. */
  lemma AppendKeepsCursors(log: Log, hist: seq<Publish>, p: Publish, c: Cursor)
    requires Holds(log, hist) && ValidCursor(log, c)
    ensures Append(log, p).segs != [] && ValidCursor(Append(log, p), c)
  {
    RetentionKeeps(log, hist);
    RetentionKeepsPlaces(log, hist, c);
    PushKeepsPlaces(ApplyRetention(log), p, c);
  }

  lemma AppendKeepsOwned(log: Log, hist: seq<Publish>, p: Publish, c: Cursor)
    requires Holds(log, hist) && Owns(log, c)
    ensures Append(log, p).segs != []
    ensures Owns(Append(log, p), c) || c.1 < Append(log, p).HeadOffset()
  {
    RetentionKeeps(log, hist);
    RetentionKeepsPlaces(log, hist, c);
    PushKeepsPlaces(ApplyRetention(log), p, c);
  }

  function AppendAll(log: Log, ps: seq<Publish>): Log
    requires log.segs != []
    ensures AppendAll(log, ps).segs != []
  {
    if ps == [] then log else Append(AppendAll(log, ps[..|ps| - 1]), ps[|ps| - 1])
  }

  lemma {:induction false} AppendAllKeeps(log: Log, hist: seq<Publish>, ps: seq<Publish>, c: Cursor)
    requires Holds(log, hist) && Owns(log, c)
    ensures Holds(AppendAll(log, ps), hist + ps)
    ensures log.HeadOffset() <= AppendAll(log, ps).HeadOffset()
    ensures Owns(AppendAll(log, ps), c) || c.1 < AppendAll(log, ps).HeadOffset()
  {
    if ps == [] {
      assert hist + ps == hist;
    } else {
      var qs, p := ps[..|ps| - 1], ps[|ps| - 1];
      AppendAllKeeps(log, hist, qs, c);
      var l := AppendAll(log, qs);
      assert hist + ps == hist + qs + [p];
      AppendHolds(l, hist + qs, p);
      if Owns(l, c) {
        AppendKeepsOwned(l, hist + qs, p, c);
      }
      assert AppendAll(log, ps) == Append(l, p);
    }
  }

  /** However much has been appended to a new log, it has its shape: between one and `maxSegments` segments
      that abut, their sizes accounted for, none over the size limit by more than its last item, all but the
      last at the limit, and none dropped while there were fewer; and it holds the end of what was appended. */
  lemma {:induction false} ShapeAlways(maxSegmentSize: nat, maxSegments: nat, ps: seq<Publish>)
    requires maxSegmentSize >= 1 && maxSegments >= 1
    ensures var log := AppendAll(Empty(maxSegmentSize, maxSegments), ps);
            Shape(log) && Holds(log, ps) && log.maxSegments == maxSegments
  {
    hide Shape, Holds, Append;
    EmptyHolds(maxSegmentSize, maxSegments);
    if ps != [] {
      var qs, p := ps[..|ps| - 1], ps[|ps| - 1];
      ShapeAlways(maxSegmentSize, maxSegments, qs);
      var log := AppendAll(Empty(maxSegmentSize, maxSegments), qs);
      AppendHolds(log, qs, p);
      AppendShape(log, qs, p);
      assert qs + [p] == ps;
    } else {
      EmptyLimit(maxSegmentSize, maxSegments);
    }
  }

  lemma EmptyLimit(maxSegmentSize: nat, maxSegments: nat)
    ensures Empty(maxSegmentSize, maxSegments).maxSegments == maxSegments
  {
  }

  /** A read from the place of a retained item returns that item first, tagged with that place. */
  lemma OwnedReadsFirst(log: Log, hist: seq<Publish>, c: Cursor, len: nat)
    requires Holds(log, hist) && Owns(log, c) && len >= 1
    ensures c.1 < |hist|
    ensures var r := ReadV(log, c, len).1; |r| >= 1 && r[0] == (hist[c.1], c)
  {
    OwnerIsUnique(log, c);
    assert Clamp(log, c) == c && From(log, c) == c.1;
    ReadVRefinesHistory(log, hist, c, len);
    assert ReadV(log, c, len).1[0] == EntryAt(log, c.1 + 0);
  }

  /** The tag on a returned item is a position: after any further appends, a read from it returns
      that item first, with the same tag, for as long as the item is retained. */
  lemma TagReadsItsItem(log: Log, hist: seq<Publish>, c: Cursor, len: nat, e: Entry, ps: seq<Publish>, len': nat)
    requires Holds(log, hist) && e in ReadV(log, c, len).1 && len' >= 1
    requires AppendAll(log, ps).HeadOffset() <= e.1.1
    ensures Layout(AppendAll(log, ps))
    ensures var again := ReadV(AppendAll(log, ps), e.1, len').1; |again| >= 1 && again[0] == e
  {
    ReadVRefinesHistory(log, hist, c, len);
    assert Owns(log, e.1) && e.1.1 < |hist| && e.0 == hist[e.1.1];
    AppendAllKeeps(log, hist, ps, e.1);
    OwnedReadsFirst(AppendAll(log, ps), hist + ps, e.1, len');
  }

  /** The layout, but for the active segment, which may be empty. */
  ghost predicate LayoutBefore(l: Log) {
    && 1 <= |l.segs| == l.tail - l.head + 1
    && 1 <= l.maxSegmentSize
    && Abut(l.segs)
    && (forall i :: 0 <= i < |l.segs| - 1 ==> |l.segs[i].data| > 0)
    && (l.head == 0 ==> l.segs[0].base == 0)
  }

  lemma RollLayout(log: Log)
    requires Layout(log) && log.Active().totalSize >= log.maxSegmentSize
    ensures LayoutBefore(ApplyRetention(log))
  {
    var l := ApplyRetention(log);
    var d := if |log.segs| >= log.maxSegments then 1 else 0;
    assert forall i :: 0 <= i < |l.segs| - 1 ==> l.segs[i] == log.segs[i + d];
    forall i | 0 < i < |l.segs| ensures Joined(l.segs, i) {
      if i + d < |log.segs| {
        assert Joined(log.segs, i + d);
      }
    }
  }

  lemma AppendLayout(log: Log, p: Publish)
    requires Layout(log)
    ensures Layout(Append(log, p))
  {
    if log.Active().totalSize >= log.maxSegmentSize {
      RollLayout(log);
    }
    PushLayout(ApplyRetention(log), p);
  }

  lemma PushLayout(l: Log, p: Publish)
    requires LayoutBefore(l)
    ensures Layout(l.(segs := l.segs[|l.segs| - 1 := Push(l.Active(), p)]))
  {
    var segs := l.segs[|l.segs| - 1 := Push(l.Active(), p)];
    forall i | 0 < i < |segs| ensures Joined(segs, i) {
      assert Joined(l.segs, i);
    }
  }

  /** Every log there is has the layout, so that reading and appending are total. */
  type LaidLog = log: Log | Layout(log) witness Empty(1, 1)

  function AppendLaid(log: LaidLog, p: Publish): LaidLog {
    AppendLayout(log, p);
    Append(log, p)
  }
}
