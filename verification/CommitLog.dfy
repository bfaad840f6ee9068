/** The commit log as it is kept in memory, updated in place. */
module CommitLogs {
  import opened Basics
  import opened LogSpec

  datatype SegmentPosition = NextAt(offset: nat) | DoneAt(offset: nat)

  function Tagged(data: seq<Publish>, segment: nat, offset: nat): (r: seq<Entry>)
    ensures |r| == |data|
    ensures forall k :: 0 <= k < |r| ==> r[k] == (data[k], (segment, offset + k))
  {
    seq(|data|, k requires 0 <= k < |data| => (data[k], (segment, offset + k)))
  }

  class Segment {
    var data: seq<Publish>
    var totalSize: nat
    const absoluteOffset: nat

    constructor WithOffset(absoluteOffset: nat)
      ensures View() == Seg([], 0, absoluteOffset)
    {
      this.data := [];
      this.totalSize := 0;
      this.absoluteOffset := absoluteOffset;
    }

    function View(): Seg
      reads this
    {
      Seg(data, totalSize, absoluteOffset)
    }

    method Push(item: Publish)
      modifies this
      ensures View() == LogSpec.Push(old(View()), item)
    {
      totalSize := totalSize + ItemSize(item);
      data := data + [item];
    }

    /** Appends what it reads to the caller's vector, given and returned as `out`. */
    method Readv(cursor: Cursor, len: nat, out: seq<Entry>) returns (position: SegmentPosition, out': seq<Entry>)
      requires absoluteOffset <= cursor.1
      ensures SegmentRead(old(View()), cursor, len, out, position, out')
    {
      var idx := cursor.1 - absoluteOffset;
      var ret: Option<nat>;
      out' := out;
      if idx >= |data| {
        ret := None;
      } else {
        var limit := idx + len;
        ret := Some(limit);
        if limit >= |data| {
          ret := None;
          limit := |data|;
        }
        out' := out + Tagged(data[idx..limit], cursor.0, cursor.1);
      }
      match ret {
        case Some(relative) => position := NextAt(absoluteOffset + relative);
        case None => position := DoneAt(absoluteOffset + |data|);
      }
    }
  }

  ghost function Views(segments: seq<Segment>): (r: seq<Seg>)
    reads segments
    ensures |r| == |segments|
    ensures forall i :: 0 <= i < |r| ==> r[i] == segments[i].View()
  {
    seq(|segments|, i requires 0 <= i < |segments| reads segments => segments[i].View())
  }

  class CommitLog {
    var head: nat
    var tail: nat
    const maxSegmentSize: nat
    const maxMemSegments: nat
    var segments: seq<Segment>

    ghost predicate Valid()
      reads this, segments
    {
      && segments != []
      && (forall i :: 0 <= i < |segments| - 1 ==> segments[i] != segments[|segments| - 1])
      && Layout(View())
    }

    ghost function View(): Log
      reads this, segments
    {
      Log(head, tail, maxSegmentSize, maxMemSegments, Views(segments))
    }

    /** A log with a segment limit under 1 KB, or with no segment, is refused; the source panics. */
    constructor (maxSegmentSize: nat, maxMemSegments: nat)
      requires 1024 <= maxSegmentSize && 1 <= maxMemSegments
      ensures Valid() && View() == Empty(maxSegmentSize, maxMemSegments)
      ensures fresh(segments)
    {
      this.head, this.tail := 0, 0;
      this.maxSegmentSize, this.maxMemSegments := maxSegmentSize, maxMemSegments;
      var active := new Segment.WithOffset(0);
      this.segments := [active];
    }

    method NextOffset() returns (offset: Cursor)
      requires Valid()
      ensures offset == View().NextOffset()
    {
      var active := segments[|segments| - 1];
      offset := (tail, active.absoluteOffset + |active.data|);
    }

    method Append(message: Publish) returns (offset: Cursor)
      requires Valid()
      modifies this, segments
      ensures Valid() && View() == LogSpec.Append(old(View()), message)
      ensures offset == View().NextOffset()
      ensures forall g :: g in segments ==> g in old(segments) || fresh(g)
    {
      hide Layout, LogSpec.ApplyRetention;
      ghost var log := View();
      AppendLayout(log, message);
      ApplyRetention();
      ghost var rolled := View();
      var active := segments[|segments| - 1];
      assert active in segments;
      active.Push(message);
      ghost var pushed := LogSpec.Append(log, message);
      assert View() == pushed by {
        assert forall i :: 0 <= i < |segments| - 1 ==> segments[i].View() == rolled.segs[i];
        assert View().segs == pushed.segs;
      }
      offset := (tail, active.absoluteOffset + |active.data|);
    }

    method ApplyRetention()
      requires Valid()
      modifies this`head, this`tail, this`segments
      ensures segments != [] && View() == LogSpec.ApplyRetention(old(View()))
      ensures forall i :: 0 <= i < |segments| - 1 ==> segments[i] != segments[|segments| - 1]
      ensures forall g :: g in segments ==> g in old(segments) || fresh(g)
    {
      hide Layout;
      var active := segments[|segments| - 1];
      if active.totalSize >= maxSegmentSize {
        // The offset is read before the oldest segment goes, in case it is the only one.
        var absoluteOffset := active.absoluteOffset + |active.data|;
        if |segments| >= maxMemSegments {
          segments := segments[1..];
          head := head + 1;
        }
        var next := new Segment.WithOffset(absoluteOffset);
        segments := segments + [next];
        tail := tail + 1;
        assert View() == LogSpec.ApplyRetention(old(View()));
      }
    }

    method Readv(start: Cursor, len: nat) returns (position: Position, out: seq<Entry>)
      requires Valid()
      ensures position == ReadV(View(), start, len).0
      ensures out == ReadV(View(), start, len).1
    {
      hide HasRead, SegmentFrom, EntryAt, From, Abut;
      var from := start;
      if from.0 > tail {
        return Done(start, start), [];
      }
      if from.0 < head {
        from := (head, segments[0].absoluteOffset);
      }
      if segments[from.0 - head].absoluteOffset > from.1 {
        from := (from.0, segments[from.0 - head].absoluteOffset);
      }
      var over, cursor;
      over, cursor, out := ReadFull(start, from, len);
      if over {
        Finishes(View(), start, len, out, cursor);
        position := Next(from, cursor);
      } else {
        position, out := ReadActive(start, from, len, cursor, out);
      }
    }

    /** The loop of `readv` over the full segments, from the clamped cursor.  It is over when the
        wanted entries have been found there; otherwise it leaves the cursor in the active segment. */
    method ReadFull(ghost start: Cursor, from: Cursor, len: nat)
      returns (over: bool, cursor: Cursor, out: seq<Entry>)
      requires Valid() && start.0 <= tail && from == Clamp(View(), start)
      ensures over ==> Stopped(View(), From(View(), start), len, out, cursor)
      ensures !over ==> cursor.0 == tail && |out| <= len && HasRead(View(), From(View(), start), out, cursor)
    {
      hide From, SegmentRead, Entries, PlaceOf, Layout;
      ghost var log := View();
      ghost var first := From(log, start);
      ReadStarts(log, start);
      var left, idx := len, from.0 - head;
      over, cursor, out := false, from, [];

      while cursor.0 < tail
        invariant View() == log
        invariant head <= cursor.0 <= tail && idx == cursor.0 - head
        invariant left == len - |out|
        invariant HasRead(log, first, out, cursor)
        decreases tail - cursor.0
      {
        ghost var before := out;
        var step;
        assert segments[idx].View() == log.segs[idx];
        step, out := segments[idx].Readv(cursor, left, out);
        ReadsSegment(log, first, before, cursor, left, step, out);
        match step {
          case NextAt(offset) =>
            return true, (cursor.0, offset), out;
          case DoneAt(next) =>
            if next >= cursor.1 {
              left := left - (next - cursor.1);
            }
            cursor := (cursor.0 + 1, next);
        }
        if left == 0 {
          return true, cursor, out;
        }
        idx := idx + 1;
      }
    }

    /** The active segment is read apart: reaching its end is the end of the log. */
    method ReadActive(ghost start: Cursor, from: Cursor, len: nat, cursor: Cursor, before: seq<Entry>)
      returns (position: Position, out: seq<Entry>)
      requires Valid() && start.0 <= tail && from == Clamp(View(), start)
      requires cursor.0 == tail && |before| <= len && HasRead(View(), From(View(), start), before, cursor)
      ensures position == ReadV(View(), start, len).0
      ensures out == ReadV(View(), start, len).1
    {
      hide SegmentRead, EntryAt, SegmentFrom, Abut, ReadV;
      ghost var log := View();
      out := before;
      var last := segments[|segments| - 1];
      if last.absoluteOffset + |last.data| <= cursor.1 {
        EndsAtActive(log, start, len, out, cursor);
        return Done(from, cursor), out;
      }
      var step;
      assert last.View() == log.Active();
      step, out := last.Readv(cursor, len - |out|, out);
      ReadsSegment(log, From(log, start), before, cursor, len - |before|, step, out);
      Finishes(log, start, len, out, (cursor.0, step.offset));
      match step {
        case NextAt(v) => position := Next(from, (cursor.0, v));
        case DoneAt(absoluteOffset) => position := Done(from, (cursor.0, absoluteOffset));
      }
    }
  }

  /** Part of a read that began at `first` has been done: `out` is read, and `cursor` is where to go on. */
  ghost predicate HasRead(log: Log, first: nat, out: seq<Entry>, cursor: Cursor)
    requires Layout(log) && log.head <= cursor.0 <= log.tail
  {
    && log.HeadOffset() <= first
    && From(log, cursor) == first + |out|
    && log.segs[cursor.0 - log.head].base <= cursor.1
    && (if first <= log.Active().Next() then
          first + |out| <= log.Active().Next() && out == Entries(log, first, |out|)
        else
          out == [] && cursor.0 == log.tail)
  }

  lemma EndsAtActive(log: Log, start: Cursor, len: nat, out: seq<Entry>, cursor: Cursor)
    requires Layout(log) && start.0 <= log.tail && cursor.0 == log.tail && |out| <= len
    requires log.head <= log.tail && HasRead(log, From(log, start), out, cursor) && log.Active().Next() <= cursor.1
    ensures ReadV(log, start, len) == (Done(Clamp(log, start), cursor), out)
  {
    LastPlace(log);
    FromIsRetained(log, start);
    if From(log, start) <= log.Active().Next() {
      Finishes(log, start, len, out, cursor);
    }
  }

  lemma ReadStarts(log: Log, start: Cursor)
    requires Layout(log) && start.0 <= log.tail
    ensures var c := Clamp(log, start); log.head <= c.0 <= log.tail && HasRead(log, From(log, start), [], c)
    ensures 1 <= |log.segs| == log.tail - log.head + 1
  {
    FromIsRetained(log, start);
  }

  /** All that was asked for has been read before the end of the log. */
  ghost predicate Stopped(log: Log, first: nat, len: nat, out: seq<Entry>, cursor: Cursor)
    requires Layout(log)
  {
    && log.HeadOffset() <= first && first + len < log.Active().Next()
    && out == Entries(log, first, len)
    && cursor == PlaceOf(log, first + len)
  }

  /** What `Segment.Readv` promises, in terms of the value of the segment: how many items it reads,
      that it appends them with their positions, and where it says it stopped. */
  ghost predicate SegmentRead(g: Seg, cursor: Cursor, len: nat, out: seq<Entry>, position: SegmentPosition,
                              out': seq<Entry>)
    requires g.base <= cursor.1
  {
    var n := if cursor.1 >= g.Next() then 0 else Min(len, g.Next() - cursor.1);
    && |out'| == |out| + n
    && (forall k :: 0 <= k < |out| ==> out'[k] == out[k])
    && (forall k :: |out| <= k < |out'| ==>
          out'[k] == (g.data[cursor.1 - g.base + (k - |out|)], (cursor.0, cursor.1 + (k - |out|))))
    && position == if cursor.1 + len >= g.Next() then DoneAt(g.Next()) else NextAt(cursor.1 + len)
  }

  lemma OwnedEntry(log: Log, c: Cursor)
    requires Layout(log) && Owns(log, c)
    ensures log.HeadOffset() <= c.1 < log.Active().Next()
    ensures var g := log.segs[c.0 - log.head]; EntryAt(log, c.1) == (g.data[c.1 - g.base], c)
  {
    OwnerIsUnique(log, c);
  }

  lemma LastPlace(log: Log)
    requires Layout(log)
    ensures log.HeadOffset() <= log.Active().Next()
    ensures PlaceOf(log, log.Active().Next()) == log.NextOffset()
  {
    SegmentsBelowActive(log, 0);
    SegmentsBelowActive(log, PlaceOf(log, log.Active().Next()).0 - log.head);
  }

  lemma BetweenSegments(log: Log, i: nat)
    requires Layout(log) && i < |log.segs| - 1
    ensures log.HeadOffset() <= log.segs[i].Next() < log.Active().Next()
    ensures PlaceOf(log, log.segs[i].Next()) == (log.head + i + 1, log.segs[i].Next())
  {
    assert Joined(log.segs, i + 1);
    OwnerIsUnique(log, (log.head + i + 1, log.segs[i].Next()));
  }

  lemma ReadsEntries(log: Log, first: nat, out: seq<Entry>, cursor: Cursor, len: nat,
                     position: SegmentPosition, out': seq<Entry>)
    requires Layout(log) && log.head <= cursor.0 <= log.tail && HasRead(log, first, out, cursor)
    requires SegmentRead(log.segs[cursor.0 - log.head], cursor, len, out, position, out')
    requires first <= log.Active().Next()
    ensures |out| <= |out'| <= |out| + len
    ensures first + |out'| <= log.Active().Next() && out' == Entries(log, first, |out'|)
  {
    var g := log.segs[cursor.0 - log.head];
    SegmentsBelowActive(log, cursor.0 - log.head);
    forall k | |out| <= k < |out'| ensures out'[k] == EntryAt(log, first + k) {
      OwnedEntry(log, (cursor.0, cursor.1 + (k - |out|)));
    }
    assert forall k :: 0 <= k < |out| ==> out'[k] == EntryAt(log, first + k);
  }

  lemma ReadsSegment(log: Log, first: nat, out: seq<Entry>, cursor: Cursor, len: nat,
                     position: SegmentPosition, out': seq<Entry>)
    requires Layout(log) && log.head <= cursor.0 <= log.tail && HasRead(log, first, out, cursor)
    requires SegmentRead(log.segs[cursor.0 - log.head], cursor, len, out, position, out')
    requires first <= log.Active().Next()
    ensures |out| <= |out'| <= |out| + len
    ensures first + |out'| <= log.Active().Next() && out' == Entries(log, first, |out'|)
    ensures position.offset == first + |out'|
    ensures position.NextAt? ==>
              && position.offset < log.Active().Next() && |out'| == |out| + len
              && PlaceOf(log, position.offset) == (cursor.0, position.offset)
    ensures position.DoneAt? ==> |out'| - |out| == if position.offset >= cursor.1 then position.offset - cursor.1 else 0
    ensures position.DoneAt? && cursor.0 < log.tail ==>
              && HasRead(log, first, out', (cursor.0 + 1, position.offset))
              && PlaceOf(log, position.offset) == (cursor.0 + 1, position.offset)
              && position.offset < log.Active().Next()
    ensures position.DoneAt? && cursor.0 == log.tail ==>
              position.offset == log.Active().Next() && PlaceOf(log, position.offset) == (cursor.0, position.offset)
  {
    ReadsEntries(log, first, out, cursor, len, position, out');
    if position.NextAt? {
      OwnerIsUnique(log, (cursor.0, position.offset));
    } else if cursor.0 < log.tail {
      BetweenSegments(log, cursor.0 - log.head);
      FromIsRetained(log, (cursor.0 + 1, position.offset));
    } else {
      LastPlace(log);
    }
  }

  /** A read is over when it has all it was asked for, or all there is. */
  lemma Finishes(log: Log, start: Cursor, len: nat, out: seq<Entry>, end: Cursor)
    requires Layout(log) && start.0 <= log.tail
    requires |out| <= len && log.HeadOffset() <= From(log, start) && From(log, start) + |out| <= log.Active().Next()
    requires out == Entries(log, From(log, start), |out|)
    requires |out| == len || From(log, start) + |out| == log.Active().Next()
    requires end == PlaceOf(log, From(log, start) + |out|)
    ensures ReadV(log, start, len).1 == out
    ensures ReadV(log, start, len).0 ==
            if end.1 == log.Active().Next() then Done(Clamp(log, start), end) else Next(Clamp(log, start), end)
  {
    FromIsRetained(log, start);
  }
}
