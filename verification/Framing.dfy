/** Cutting a stream of bytes, which arrives in any pieces, back into packets. */
module Framing {
  import opened Basics
  import opened Wire
  import opened V4

  /** The pieces still to come from the socket; an empty one, or none, means that the peer has closed. */
  type Pieces = seq<Text>

  function Concat(pieces: Pieces): Text {
    if pieces == [] then [] else pieces[0] + Concat(pieces[1..])
  }

  // ---------------------------------------------------------------- reading from the socket

  /** Reads pieces until there are `required` more bytes. */
  function ReadBytesFrom(read: Text, pieces: Pieces, required: nat, total: nat): (Text, Pieces, Result<nat>)
    ensures |ReadBytesFrom(read, pieces, required, total).1| <= |pieces|
    ensures ReadBytesFrom(read, pieces, required, total).2.Ok? ==>
            |ReadBytesFrom(read, pieces, required, total).1| < |pieces|
    decreases |pieces|
  {
    if pieces == [] || pieces[0] == [] then
      (read, pieces, Err(if read == [] then ConnectionAborted else ConnectionReset))
    else
      var total' := total + |pieces[0]|;
      if total' >= required then (read + pieces[0], pieces[1..], Ok(total'))
      else ReadBytesFrom(read + pieces[0], pieces[1..], required, total')
  }

  /** Waits for one packet. */
  function ReadPacket(read: Text, pieces: Pieces, maxSize: nat): (Text, Pieces, Result<Packet>)
    decreases |pieces|
  {
    var (r, rest) := ReadMut(read, maxSize);
    if r.Err? && r.error.InsufficientBytes? then
      var (read', pieces', more) := ReadBytesFrom(rest, pieces, r.error.required, 0);
      if more.Err? then (read', pieces', Err(more.error)) else ReadPacket(read', pieces', maxSize)
    else (rest, pieces, r)
  }

  /** Takes packets while there are whole ones, up to a limit on how many are held. */
  function ReadWhole(read: Text, held: seq<Packet>, limit: nat, maxSize: nat): (Text, seq<Packet>, Result<nat>)
    decreases |read|
  {
    var (r, rest) := ReadMut(read, maxSize);
    if r.Ok? then
      TakesSome(read, maxSize);
      var held' := held + [r.value];
      if |held'| >= limit then (rest, held', Ok(|held'|)) else ReadWhole(rest, held', limit, maxSize)
    else if r.error.InsufficientBytes? then (rest, held, Ok(|held|))
    else (rest, held, Err(r.error))
  }

  lemma TakesSome(read: Text, maxSize: nat)
    ensures ReadMut(read, maxSize).0.Ok? ==> |ReadMut(read, maxSize).1| < |read|
  {
  }

  class Network {
    var read: Text
    var pieces: Pieces
    const maxIncomingSize: nat
    const maxConnectionBufferLen: nat

    constructor (pieces: Pieces, maxIncomingSize: nat, maxConnectionBufferLen: nat)
      ensures read == [] && this.pieces == pieces
      ensures this.maxIncomingSize == maxIncomingSize && this.maxConnectionBufferLen == maxConnectionBufferLen
    {
      read, this.pieces := [], pieces;
      this.maxIncomingSize, this.maxConnectionBufferLen := maxIncomingSize, maxConnectionBufferLen;
    }

    method ReadBytes(required: nat) returns (r: Result<nat>)
      modifies this
      ensures (read, pieces, r) == ReadBytesFrom(old(read), old(pieces), required, 0)
    {
      var totalRead: nat := 0;
      while true
        invariant ReadBytesFrom(old(read), old(pieces), required, 0) == ReadBytesFrom(read, pieces, required, totalRead)
        decreases |pieces|
      {
        if pieces == [] || pieces[0] == [] {
          return Err(if read == [] then ConnectionAborted else ConnectionReset);
        }
        totalRead := totalRead + |pieces[0]|;
        read, pieces := read + pieces[0], pieces[1..];
        if totalRead >= required {
          return Ok(totalRead);
        }
      }
      assert false;
    }

    /** Waits for one packet. */
    method Read() returns (r: Result<Packet>)
      modifies this
      ensures (read, pieces, r) == ReadPacket(old(read), old(pieces), maxIncomingSize)
    {
      while true
        invariant ReadPacket(old(read), old(pieces), maxIncomingSize) == ReadPacket(read, pieces, maxIncomingSize)
        decreases |pieces|
      {
        var (packet, rest) := ReadMut(read, maxIncomingSize);
        read := rest;
        if packet.Ok? || !packet.error.InsufficientBytes? {
          return packet;
        }
        var more := ReadBytes(packet.error.required);
        if more.Err? {
          return Err(more.error);
        }
      }
      assert false;
    }

    /** Takes all packets that are there already. */
    method Readv(packets: seq<Packet>) returns (packets': seq<Packet>, r: Result<nat>)
      modifies this
      ensures (read, packets', r) == ReadWhole(old(read), packets, maxConnectionBufferLen, maxIncomingSize)
      ensures pieces == old(pieces)
    {
      packets' := packets;
      while true
        invariant pieces == old(pieces)
        invariant ReadWhole(old(read), packets, maxConnectionBufferLen, maxIncomingSize)
                  == ReadWhole(read, packets', maxConnectionBufferLen, maxIncomingSize)
        decreases |read|
      {
        var (packet, rest) := ReadMut(read, maxIncomingSize);
        TakesSome(read, maxIncomingSize);
        read := rest;
        match packet {
          case Ok(p) =>
            packets' := packets' + [p];
            if |packets'| >= maxConnectionBufferLen {
              return packets', Ok(|packets'|);
            }
          case Err(e) =>
            if e.InsufficientBytes? {
              return packets', Ok(|packets'|);
            }
            return packets', Err(e);
        }
      }
      assert false;
    }
  }

  // ---------------------------------------------------------------- any pieces will do

  /** The writer's output for a list of packets. */
  function AllEncoded(ps: seq<Packet>): Text {
    if ps == [] then [] else Encoded(ps[0]) + AllEncoded(ps[1..])
  }

  ghost predicate AllWritable(ps: seq<Packet>, maxSize: nat) {
    forall k :: 0 <= k < |ps| ==> Writable(ps[k]) && |Body(ps[k])| <= maxSize
  }

  ghost predicate Flowing(pieces: Pieces) {
    forall k :: 0 <= k < |pieces| ==> pieces[k] != []
  }

  /** As long as the bytes asked for are to come, they are read, and nothing is lost. */
  lemma {:induction false} EnoughIsRead(read: Text, pieces: Pieces, required: nat, total: nat)
    requires Flowing(pieces) && required >= 1 && total < required <= total + |Concat(pieces)|
    ensures var (read', pieces', r) := ReadBytesFrom(read, pieces, required, total);
            && r.Ok? && |pieces'| < |pieces| && Flowing(pieces')
            && read' + Concat(pieces') == read + Concat(pieces)
    decreases |pieces|
  {
    var more := read + pieces[0];
    assert more + Concat(pieces[1..]) == read + Concat(pieces);
    if total + |pieces[0]| < required {
      EnoughIsRead(more, pieces[1..], required, total + |pieces[0]|);
    }
  }

  lemma PrefixOf(a: Text, b: Text, whole: Text, rest: Text)
    requires a + b == whole + rest
    ensures |a| >= |whole| ==> a[..|whole|] == whole && a == whole + a[|whole|..] && a[|whole|..] + b == rest
    ensures |a| < |whole| ==> a == whole[..|a|] && |b| >= |whole| - |a|
  {
    var all := a + b;
    assert all[..|whole|] == whole;
    assert all[|whole|..] == rest;
    if |a| >= |whole| {
      assert a[|whole|..] + b == all[|whole|..];
    } else {
      assert all[..|a|] == a;
    }
  }

  /** An incomplete frame is left alone, and asks for some of the bytes it misses. */
  lemma IncompleteFrame(p: Packet, i: nat, maxSize: nat)
    requires Writable(p) && |Body(p)| <= maxSize && i < |Encoded(p)|
    ensures var (r, rest) := ReadMut(Encoded(p)[..i], maxSize);
            && rest == Encoded(p)[..i] && r.Err? && r.error.InsufficientBytes?
            && 1 <= r.error.required <= |Encoded(p)| - i
  {
    hide Body, Check;
    BodyHasLen(p);
    CheckAsksForNoMore(FirstByte(p), Body(p), i, maxSize);
  }

  /** Waiting for a packet gives the next one, however its bytes are cut up, and loses nothing of those
      that follow. */
  lemma {:induction false} NextPacketArrives(read: Text, pieces: Pieces, p: Packet, rest: Text, maxSize: nat)
    requires Writable(p) && |Body(p)| <= maxSize && Flowing(pieces)
    requires read + Concat(pieces) == Encoded(p) + rest
    ensures var (read', pieces', r) := ReadPacket(read, pieces, maxSize);
            && r == Ok(AsSent(p)) && Flowing(pieces')
            && read' + Concat(pieces') == rest
    decreases |pieces|
  {
    hide Body, Writable, Encoded, ReadMut;
    PrefixOf(read, Concat(pieces), Encoded(p), rest);
    if |read| >= |Encoded(p)| {
      PacketRoundTrip(p, read[|Encoded(p)|..], maxSize);
    } else {
      IncompleteFrame(p, |read|, maxSize);
      var required := ReadMut(read, maxSize).0.error.required;
      EnoughIsRead(read, pieces, required, 0);
      var (read', pieces', more) := ReadBytesFrom(read, pieces, required, 0);
      NextPacketArrives(read', pieces', p, rest, maxSize);
    }
  }

  function AllAsSent(ps: seq<Packet>): (r: seq<Packet>)
    ensures |r| == |ps|
    ensures forall k :: 0 <= k < |r| ==> r[k] == AsSent(ps[k])
  {
    seq(|ps|, k requires 0 <= k < |ps| => AsSent(ps[k]))
  }

  /** Taking the packets that are there gives some of the next ones, in order, and loses nothing. */
  lemma {:induction false} WholePacketsArrive(read: Text, pieces: Pieces, ps: seq<Packet>, held: seq<Packet>,
                                              limit: nat, maxSize: nat)
    returns (n: nat)
    requires AllWritable(ps, maxSize) && Flowing(pieces)
    requires read + Concat(pieces) == AllEncoded(ps)
    ensures n <= |ps|
    ensures var (read', held', r) := ReadWhole(read, held, limit, maxSize);
            && r.Ok? && held' == held + AllAsSent(ps[..n])
            && read' + Concat(pieces) == AllEncoded(ps[n..])
    decreases |ps|
  {
    hide Body, Writable, Encoded, ReadMut;
    n := 0;
    assert held + AllAsSent(ps[..0]) == held && ps[0..] == ps;
    if ps == [] {
      NothingToRead(maxSize);
    } else {
      var p := ps[0];
      PrefixOf(read, Concat(pieces), Encoded(p), AllEncoded(ps[1..]));
      if |read| >= |Encoded(p)| {
        var rest := read[|Encoded(p)|..];
        PacketRoundTrip(p, rest, maxSize);
        var more := held + [AsSent(p)];
        assert more == held + AllAsSent(ps[..1]);
        n := 1;
        if |more| < limit {
          var m := WholePacketsArrive(rest, pieces, ps[1..], more, limit, maxSize);
          assert ps[1..][..m] == ps[1..m + 1] && ps[1..][m..] == ps[m + 1..];
          assert more + AllAsSent(ps[1..][..m]) == held + AllAsSent(ps[..m + 1]);
          n := m + 1;
        }
      } else {
        IncompleteFrame(p, |read|, maxSize);
      }
    }
  }

  lemma NothingToRead(maxSize: nat)
    ensures ReadMut([], maxSize) == (Err(InsufficientBytes(2)), [])
  {
  }

  // ---------------------------------------------------------------- a whole conversation

  lemma {:induction false} FillKeeps(read: Text, pieces: Pieces, required: nat, total: nat)
    ensures var (read', pieces', r) := ReadBytesFrom(read, pieces, required, total);
            |read'| + |Concat(pieces')| == |read| + |Concat(pieces)|
    decreases |pieces|
  {
    if pieces != [] && pieces[0] != [] && total + |pieces[0]| < required {
      FillKeeps(read + pieces[0], pieces[1..], required, total + |pieces[0]|);
    }
  }

  lemma {:induction false} ReadPacketTakes(read: Text, pieces: Pieces, maxSize: nat)
    ensures var (read', pieces', r) := ReadPacket(read, pieces, maxSize);
            r.Ok? ==> |read'| + |Concat(pieces')| < |read| + |Concat(pieces)|
    decreases |pieces|
  {
    hide ReadMut, Concat, ReadBytesFrom;
    TakesSome(read, maxSize);
    LeavesRest(read, maxSize);
    var (r, rest) := ReadMut(read, maxSize);
    if r.Err? && r.error.InsufficientBytes? {
      FillKeeps(rest, pieces, r.error.required, 0);
      var (read', pieces', more) := ReadBytesFrom(rest, pieces, r.error.required, 0);
      if more.Ok? {
        ReadPacketTakes(read', pieces', maxSize);
      }
    }
  }

  lemma LeavesRest(read: Text, maxSize: nat)
    ensures |ReadMut(read, maxSize).1| <= |read|
  {
  }

  lemma {:induction false} ReadWholeTakes(read: Text, held: seq<Packet>, limit: nat, maxSize: nat)
    ensures |ReadWhole(read, held, limit, maxSize).0| <= |read|
    decreases |read|
  {
    hide ReadMut;
    TakesSome(read, maxSize);
    LeavesRest(read, maxSize);
    var (r, rest) := ReadMut(read, maxSize);
    if r.Ok? && |held| + 1 < limit {
      ReadWholeTakes(rest, held + [r.value], limit, maxSize);
    }
  }

  /** What a link gets from its network: it waits for a packet, takes with it those that are there, and
      goes on until the peer closes or sends what cannot be read. */
  function Conversation(read: Text, pieces: Pieces, limit: nat, maxSize: nat): (seq<Packet>, Error)
    decreases |read| + |Concat(pieces)|
  {
    var (read1, pieces1, r) := ReadPacket(read, pieces, maxSize);
    if r.Err? then ([], r.error)
    else
      var (read2, batch, more) := ReadWhole(read1, [r.value], limit, maxSize);
      if more.Err? then (batch, more.error)
      else
        ReadPacketTakes(read, pieces, maxSize);
        ReadWholeTakes(read1, [r.value], limit, maxSize);
        var (others, e) := Conversation(read2, pieces1, limit, maxSize);
        (batch + others, e)
  }

  lemma NothingFlows(pieces: Pieces)
    requires Flowing(pieces) && Concat(pieces) == []
    ensures pieces == []
  {
  }

  /** Framing.  For any list of packets and any way of cutting the writer's output into pieces, the link
      gets exactly that list, in order, and then sees the peer close between two packets. */
  lemma {:induction false} FramingRoundTrip(read: Text, pieces: Pieces, ps: seq<Packet>, limit: nat, maxSize: nat)
    requires AllWritable(ps, maxSize) && Flowing(pieces)
    requires read + Concat(pieces) == AllEncoded(ps)
    ensures Conversation(read, pieces, limit, maxSize) == (AllAsSent(ps), ConnectionAborted)
    decreases |ps|
  {
    hide Body, Writable, Encoded, ReadMut, ReadPacket, ReadWhole, Concat, AllEncoded;
    if ps == [] {
      EndsInPeace(read, pieces, maxSize);
      assert AllAsSent(ps) == [];
    } else {
      FirstEncoded(ps);
      NextPacketArrives(read, pieces, ps[0], AllEncoded(ps[1..]), maxSize);
      var (read1, pieces1, r) := ReadPacket(read, pieces, maxSize);
      var n := WholePacketsArrive(read1, pieces1, ps[1..], [r.value], limit, maxSize);
      var (read2, batch, more) := ReadWhole(read1, [r.value], limit, maxSize);
      var left := ps[n + 1..];
      assert ps[1..][n..] == left;
      FramingRoundTrip(read2, pieces1, left, limit, maxSize);
      assert batch + AllAsSent(left) == AllAsSent(ps);
    }
  }

  lemma FirstEncoded(ps: seq<Packet>)
    requires ps != []
    ensures AllEncoded(ps) == Encoded(ps[0]) + AllEncoded(ps[1..])
  {
  }

  lemma EndsInPeace(read: Text, pieces: Pieces, maxSize: nat)
    requires Flowing(pieces) && read + Concat(pieces) == AllEncoded([])
    ensures ReadPacket(read, pieces, maxSize).2 == Err(ConnectionAborted)
  {
    assert read == [] && Concat(pieces) == [];
    NothingFlows(pieces);
    NothingToRead(maxSize);
  }
}
