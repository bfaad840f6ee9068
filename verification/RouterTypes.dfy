/** The values the router passes around. */
module RouterTypes {
  import opened Basics
  import opened LogSpec

  /** A slab key.  The slab of a removed connection may hand the same key to a later one. */
  type ConnectionId = nat
  type FilterIdx = nat

  const MAX_INFLIGHT: nat := 100
  const MAX_CHANNEL_CAPACITY: nat := 200
  const MAX_SCHEDULE_ITERATIONS: nat := 100

  /** The token of one subscription: who reads which log, from where. */
  datatype DataRequest = DataRequest(
    filter: Text, filterIdx: FilterIdx, qos: QoS, cursor: Cursor, readCount: nat, forwardRetained: bool)

  type Waiter = (ConnectionId, DataRequest)

  datatype PauseReason = Caughtup | InflightFull | Busy
  datatype Status = Ready | Paused(reason: PauseReason)
  datatype ScheduleReason = Init | NewFilter | FreshData | IncomingAck | ReadyEvent

  datatype Ack =
    | ConnAck(sessionPresent: bool)
    | PubAck(pkid: PacketId)
    | SubAck(pkid: PacketId, codes: seq<QoS>)
    | PubRec(pkid: PacketId)
    | PubRel(pkid: PacketId)
    | PubComp(pkid: PacketId)
    | UnsubAck(pkid: PacketId)
    | PingResp

  /** A publish forwarded to a subscriber; a retained message has no cursor.  The filter index is
      carried for the statements below. */
  datatype Forward = Forward(filterIdx: FilterIdx, cursor: Option<Cursor>, publish: Publish)

  datatype Notification = Forwarded(f: Forward) | DeviceAck(ack: Ack) | Unschedule

  /** What a link reads from the network for the router.  `allowed` is the answer of the access
      handler, which the router asks at that point. */
  datatype Packet =
    | PublishPacket(publish: Publish, allowed: bool)
    | SubscribePacket(pkid: PacketId, filters: seq<SubscribeFilter>)
    | UnsubscribePacket(pkid: PacketId, unsubscribed: seq<Text>)
    | PubAckPacket(pkid: PacketId)
    | PubRecPacket(pkid: PacketId)
    | PubRelPacket(pkid: PacketId, allowed: bool)
    | PubCompPacket(pkid: PacketId)
    | PingReqPacket
    | DisconnectPacket
    | OtherPacket

  datatype SubscribeFilter = SubscribeFilter(path: Text, qos: QoS, allowed: bool)
}
