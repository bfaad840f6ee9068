/** Types shared by the log, the router and the wire codec. */
module Basics {

  type Byte = x: int | 0 <= x < 256

  /** A byte string.  The separators and wildcards of MQTT are ASCII, so splitting UTF-8 text at them and
      comparing the pieces is the same byte by byte and character by character.  Cutting it at a fixed
      byte is not: see `Unsliceable` in `Topics`. */
  type Text = seq<Byte>

  type PacketId = x: int | 0 <= x < 0x1_0000

  datatype Option<+T> = None | Some(value: T)

  datatype QoS = AtMostOnce | AtLeastOnce | ExactlyOnce

  datatype Publish = Publish(dup: bool, retain: bool, qos: QoS, pkid: PacketId, topic: Text, payload: Text)

  /** A (segment, absolute offset) position in a commit log. */
  type Cursor = (nat, nat)

  function Min(a: nat, b: nat): nat { if a <= b then a else b }

  function Max(a: nat, b: nat): nat { if a <= b then b else a }
}
