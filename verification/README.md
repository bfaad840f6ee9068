# A verified model of the rumqttd broker

This project models the message path of the vendored `rumqttd` broker (`crates/rumqttd`) and the access
pattern check of the server around it (`src/acl`), and proves what that path promises.

- **Logs.** One segmented commit log per filter (`LogSpec`, `LogReader`), with the in-place classes of
  `CommitLog.dfy`.
- **Topics.** The matching loop, the topic cache over it, and the access rules (`Topics`, `Acl`).
- **Router.** The router is an event-driven state machine.  `StoreSpec`, `WindowSpec` and `RouterSpec`
  say what each operation computes; `DataLog.dfy`, `Waiters.dfy`, `Outgoing.dfy`, `Router.dfy` and
  `Link.dfy` do it in place, with the loops of the source, and are proved against those functions.
- **Runs.** `RouterRun` puts the router, its links and its devices together: a run is any interleaving of
  handling an event, polling the ready queue, an event being sent, and a link being built, woken, taking
  the shared buffer, and having written it out.  `RouterInv` is what every reachable state satisfies; the
  `Router*` files before `RouterRun` prove it operation by operation.
- **Devices.** `DeviceSpec` says, from the packets alone, what a device may expect: what is accepted of its
  publishes, how each packet is answered, and which one ends its connection.  `RouterDevice` and
  `RouterDesk` prove that the router keeps to it packet by packet and batch by batch, `RouterLife` and
  `RouterReplies` over the life of a connection and over runs.
- **What it means.** `RouterOrder` and `RouterGiven` (what a subscriber is sent), `RouterWakeUps` (nobody
  waits for ever), `RouterConservation` (one request for each subscription, across restarts too),
  `RouterQueue` (the ready queue), `RouterPanics` (when the router panics), `RouterLimits` and
  `RouterWitnesses` (where these claims end, with runs that lead there).  `Guarantees` sums this up: each of
  its theorems is about every state that a new router can reach.
- **Bytes.** The variable byte integer and the fixed header (`Wire`), three packets of MQTT 3.1.1 (`V4`),
  cutting a byte stream back into packets (`Framing`), and PUBLISH and CONNECT of MQTT 5.0
  (`V5Properties`, `V5`).

States carry history beside the fields of the source: everything accepted (`accepted`), everything ever
appended to a log (`hist`), every forward sent to a connection (`sent`), the log positions a session has
had acknowledged, lost or missed and the acknowledgements it received (`ledger`), how many of those came
before its connection (`from`), everything put into a link's buffer and how much of it the link has taken and
seen (`all`, `taken`, `seen`), and where and when a subscription started (`origin`).  No operation looks at
them.
A position is missed where a read finds its cursor behind the head of the log, and only there
(`RouterOrder.MissesIff`).

## Assumptions of the run theorems

- No shared subscriptions, and no message expiry.
- `max_outgoing_packet_count` is at least 1.
- In one batch of packets, no Unsubscribe follows a publish or PUBREL that may wake somebody
  (`RouterBatch.UnsubscribesFirst`); `RouterLimits.UnsubscribeLeavesWoken` says exactly what happens
  otherwise.
- The configured segments are at least one of at least 1 KB, without which no log can be made.
- The router has not panicked.  `RouterRun.PanicsExactly` says when it does.  An `Event::Ready` for a
  connection that is gone makes `reschedule` unwrap nothing.  And `matches` cuts its topic after the first
  byte, which panics if the first character is longer: on accepting a publish to such a topic once there
  is a filter, and on reading the retained messages once such a topic is among them.
  `RouterWitnesses` has a run of a new router for each.

## Where the code and its comments differ

- `matches` has a topic that starts with '$' match nothing, so `$SYS/#` does not match `$SYS/x`, unlike
  section 4.7.2 of MQTT 3.1.1.  `valid_filter` is not called when a client subscribes.
- `DataLog::matches` never answers `None`, so the error for a topic without filters never occurs.
- An empty payload clears the retained message of its topic whether or not the publish is retained.
- After a session is resumed, the subscription map does not know its filters, and an Unsubscribe for one
  of them is neither carried out nor acknowledged.
- QoS 2 publishes recorded but not released are lost when their sender reconnects.
- A PUBREL releases the oldest recorded publish and a PUBCOMP completes the oldest release, whatever their
  packet ids; `RouterLimits.ReleasesItsOwnIff` and `CompletesItsOwnIff` say when these are their own.
- The builder of a link takes the only wake-up for what the router puts in the buffer at first, but only one
  notification: the PUBRELs of a resumed session then wait for the next thing that is pushed
  (`RouterOrder.BuilderLeavesIff`).
- Retained messages beyond what one read may give are never given (`RouterGiven.AllRetainedGivenIff`).
- `Publish::len`, described as approximate, is the length that is declared when a v4 PUBLISH is written;
  it is exact.

## Model

| member | source | states |
|---|---|---|
| LogSpec.ReadVRefinesHistory | crates/rumqttd/src/segments/mod.rs:173-268 | From any cursor, `readv` is a read of the flat history: the next `len` items from the resume point, each tagged with the segment and offset that own it, an end just after them that is a good cursor, and Done exactly when that end is the end of everything ever appended; from a cursor past the log it returns nothing |
| LogSpec.ValidCursorResumes | crates/rumqttd/src/segments/mod.rs:191-201 | From a cursor the log has handed out, reading resumes at its offset, or at the head if that has been dropped |
| LogSpec.TagReadsItsItem | crates/rumqttd/src/segments/segment.rs:84-88 | The tag on an item is a position: after any further appends, a read from it returns that item first with the same tag, for as long as it is retained |
| LogSpec.AppendHolds | crates/rumqttd/src/segments/mod.rs:138-144 | Appending extends the history by one item; the head only moves forward |
| LogSpec.AppendKeepsCursors | crates/rumqttd/src/segments/mod.rs:138-163 | A cursor stays good under appends, segment rolls and drops included |
| LogSpec.ShapeAlways | crates/rumqttd/src/segments/mod.rs:20-57 | However much is appended to a new log: between one and the configured number of segments, numbered and abutting, sizes accounted for, none over the limit by more than its last item, all but the last at the limit, and none dropped while there were fewer |
| LogReader.EveryInterleavingFollows | crates/rumqttd/src/segments/mod.rs:138-268 | For every interleaving of appends and reads, the reader gets strictly increasing offsets, each with the item appended there, and all of them but those dropped before it came to read them |
| LogReader.BeginFollows | crates/rumqttd/src/segments/mod.rs:87-90 | A reader that starts at `next_offset` follows the log from there |
| LogReader.DrainsInTime | crates/rumqttd/src/segments/mod.rs:208-242 | Once appends stop, reads of at least one item reach Done within as many reads as there are items left |
| CommitLogs.Segment.Push | crates/rumqttd/src/segments/segment.rs:52-55 | The segment holds one more item, and its size counts it |
| CommitLogs.Segment.Readv | crates/rumqttd/src/segments/segment.rs:60-97 | How many items a segment contributes, with which tags, and whether it says Next or Done |
| CommitLogs.CommitLog.Append | crates/rumqttd/src/segments/mod.rs:138-144 | In place, the log becomes what `LogSpec.Append` says, and the answer is its next offset |
| CommitLogs.CommitLog.ApplyRetention | crates/rumqttd/src/segments/mod.rs:146-163 | A full active segment is closed and a new one opened, the oldest dropped if there are too many; the new offset is taken before the drop |
| CommitLogs.CommitLog.Readv | crates/rumqttd/src/segments/mod.rs:173-268 | The loop over the full segments and the read of the active one give exactly the segment-free `ReadV` |
| Topics.MatchLoop | crates/rumqttd/src/protocol/mod.rs:657-690 | The check of the first byte and the loop over two level iterators decide `MatchCall`: no answer where the source panics, otherwise whether the topic matches |
| Topics.MatchesIsSection47 | crates/rumqttd/src/protocol/mod.rs:619-690 | On a valid filter and a topic that does not start with '$', the call answers by the level-by-level definition of section 4.7 of MQTT 3.1.1 if and only if the first character of the topic is one byte long; for a longer one it panics |
| Topics.UnsliceableIff | crates/rumqttd/src/protocol/mod.rs:658 | Cutting a UTF-8 topic after its first byte fails exactly if its first character is longer than one byte |
| Topics.AccentIsNotAnswered | crates/rumqttd/src/protocol/mod.rs:658 | So the topic of the one letter 0xE9 gets no answer, although the filter "+" covers it |
| Topics.DollarMatchesNothing | crates/rumqttd/src/protocol/mod.rs:658-660 | A topic that starts with '$' is answered with no by every filter, even by itself |
| Topics.MatchesComposes | crates/rumqttd/src/protocol/mod.rs:652-657 | If `g` read as a topic matches `f`, then `f` takes every topic `g` takes: what matching two subscriptions relies on |
| Acl.GrantsAgree | src/acl/matcher.rs:4-20 | For a pattern that is not leaky, every topic matched by a filter it lets subscribe to is one it lets publish on |
| Acl.ValidIsNotLeaky | src/acl/matcher.rs:4-20 | No valid filter is leaky, so the prefix rule never grants more than the level matcher for a valid pattern |
| Acl.AgreementIsExact | src/acl/matcher.rs:4-20 | The two rules agree in that sense if and only if the pattern is not leaky |
| Acl.GrantsByLevels | src/acl/matcher.rs:4-16 | For every pattern and filter, the rule on strings is a rule on levels: a pattern whose last level is "#" grants exactly what starts with its levels before that, their join itself included; one whose last level only ends in '#' grants exactly what agrees before that level and runs on from the rest of it; any other grants exactly itself |
| Acl.ValidPatternGrants | src/acl/matcher.rs:4-16 | So a valid pattern that ends in "#" lets in a filter if and only if its levels start with those before the "#", or it is the pattern; one without "#" lets in only itself |
| Aliases.BrokerAliases.SetNewAlias | crates/rumqttd/src/router/connection.rs:135-149 | For a topic without an alias: a new alias is one no topic has, between 1 and the maximum, and is what `get_alias` then answers; there is none exactly when the maximum number is live |
| Aliases.BrokerAliases.RemoveAlias | crates/rumqttd/src/router/connection.rs:122-127 | The topic loses its alias, no other does, and the slot becomes free |
| Aliases.NextIsFreeOrLast | crates/rumqttd/src/router/connection.rs:135-149 | The slot the slab hands out next is a free one, or the one just past the maximum, which is the last to be reused |
| Aliases.FullWhenAllLive | crates/rumqttd/src/router/connection.rs:135-149 | As many live aliases as the maximum are exactly the numbers from 1 to it |
| StoreSpec.LookupFailsIff | crates/rumqttd/src/router/logs.rs:127-145 | Looking up a topic panics exactly if there is a filter to compare it with and comparing it panics |
| StoreSpec.LookupIsExact | crates/rumqttd/src/router/logs.rs:127-145 | Otherwise a lookup, cached or not, lists once each exactly the filters that match the topic, and keeps the cache exact |
| StoreSpec.LookupCaches | crates/rumqttd/src/router/logs.rs:127-145 | What a lookup finds is in the cache afterwards, if it is anything, and what else was there still is |
| StoreSpec.NextNativeOffsetKeeps | crates/rumqttd/src/router/logs.rs:147-173 | A new filter is filed under every cached topic it matches and no other; the index stays a bijection; no cached topic can make the comparison panic |
| StoreSpec.AcceptLogs | crates/rumqttd/src/router/routing.rs:1276-1308 | An accepted publish is appended, with its retain flag cleared, to every log whose filter matches its topic, and to no other |
| StoreSpec.AcceptKeepsStore | crates/rumqttd/src/router/routing.rs:1228-1312 | Every log holds exactly the accepted publishes that match its filter since it exists, in order and no longer marked as retained, and stays within its limits; the retained message of each topic is the last that was accepted |
| StoreSpec.UpdateKeepsRetained | crates/rumqttd/src/router/routing.rs:1274-1278 | Retaining, replacing and clearing keep this: no topic has two retained messages, and a publish is the retained message of its topic if and only if it is the last accepted one with retain set and a payload, and none with an empty payload has been accepted since |
| StoreSpec.RetainedForSelects | crates/rumqttd/src/router/logs.rs:302-308 | What is read for a filter lists, once each and in the order in which they are kept, exactly the retained messages whose topic matches it |
| DataLogs.DataLog.Matches | crates/rumqttd/src/router/logs.rs:127-145 | The scan in place, with what it caches, and where it panics |
| DataLogs.DataLog.NextNativeOffset | crates/rumqttd/src/router/logs.rs:147-173 | In place, with the loop over the cached topics |
| DataLogs.DataLog.AppendTo | crates/rumqttd/src/router/logs.rs:352-367 | Appends to one log and takes all its waiters |
| DataLogs.DataLog.Accept | crates/rumqttd/src/router/routing.rs:1276-1308 | Retained message, lookup and the loop of appends in place; if the lookup panics, only the first has been done |
| DataLogs.DataLog.ReadRetainedMessages | crates/rumqttd/src/router/logs.rs:272-308 | The answer lists, once each and in order, exactly the retained messages whose topic matches the filter; it panics exactly if one of the topics cannot be compared |
| DataLogs.DataLog.Park | crates/rumqttd/src/router/logs.rs:238-246 | The request joins the waiters of its log |
| DataLogs.DataLog.RemoveWaitersForId | crates/rumqttd/src/router/logs.rs:104-123 | Takes the first waiter of a connection out of one log |
| DataLogs.DataLog.Clean | crates/rumqttd/src/router/logs.rs:249-256 | Takes all waiters of a connection out of all logs |
| WaiterQueues.Waiters.Register | crates/rumqttd/src/router/waiters.rs:26-29 | Appends to the queue |
| WaiterQueues.Waiters.Take | crates/rumqttd/src/router/waiters.rs:32-39 | Everybody, in order, and leaves nobody |
| WaiterQueues.Waiters.Remove | crates/rumqttd/src/router/waiters.rs:42-51 | The loop of swap-removals, and the order in which requests come out |
| RouterSessions.RemoveWaitersCount | crates/rumqttd/src/router/waiters.rs:42-51 | All waiters of the connection come out, as often as they were in; those of others stay |
| WindowSpec.PushKeepsWindow | crates/rumqttd/src/router/iobufs.rs:112-163 | Packet ids in the window stay cyclically consecutive up to the last one given out, and there are at most 100 |
| WindowSpec.AckKeepsWindow | crates/rumqttd/src/router/iobufs.rs:167-177 | Taking the oldest entry keeps that |
| WindowSpec.PushKeepsEntered | crates/rumqttd/src/router/iobufs.rs:112-163 | What a connection has been sent with a QoS above 0 is, in order, what its acknowledgements have taken out of the window and what is in it, with packet id, filter and position; pushing forwards keeps this, so the window grows by exactly those of a QoS above 0 |
| WindowSpec.AckKeepsEntered | crates/rumqttd/src/router/iobufs.rs:167-177 | So does an acknowledgement |
| WindowSpec.WindowPkids | crates/rumqttd/src/router/iobufs.rs:112-163 | Then ids are between 1 and 100, follow one another, and are all different |
| WindowSpec.RetransmissionIsLeast | crates/rumqttd/src/router/iobufs.rs:201-213 | The first cursor found for a filter is its least unacknowledged log position |
| WindowSpec.AckKeepsLedger | crates/rumqttd/src/router/iobufs.rs:167-177 | What has left the window was acknowledged or lost, never both, comes before all that is still in it, and was taken by an acknowledgement that was for it or was not |
| OutgoingBuffers.Outgoing.PushForwards | crates/rumqttd/src/router/iobufs.rs:112-163 | In place, with the loops of both kinds, the wrap of the packet id and the buffer |
| OutgoingBuffers.Outgoing.NextPkid | crates/rumqttd/src/router/iobufs.rs:132-144 | Number 100 is followed by 1 |
| OutgoingBuffers.Outgoing.RegisterAck | crates/rumqttd/src/router/iobufs.rs:167-177 | Takes the oldest entry, whatever the packet id, and says whether it was for it |
| OutgoingBuffers.Outgoing.RegisterPubcomp | crates/rumqttd/src/router/iobufs.rs:189-199 | Takes the oldest release, and says whether it was for it |
| OutgoingBuffers.Outgoing.RetransmissionMap | crates/rumqttd/src/router/iobufs.rs:203-213 | For every filter, the cursor of its first entry from a log, and nothing for the others |
| Routers.Router.Poll | crates/rumqttd/src/router/scheduler.rs:34-45 | The first of the queue, put back last; nothing if it is gone, and then it has left the queue |
| Routers.Router.Reschedule | crates/rumqttd/src/router/scheduler.rs:62-68 | In place, panicking on a connection that is gone |
| Routers.Router.Pause | crates/rumqttd/src/router/scheduler.rs:70-81 | In place, with the assertion that the paused connection is last in the queue |
| Routers.Router.DrainNotifications | crates/rumqttd/src/router/routing.rs:899-905 | The loop that hands woken requests back |
| Routers.Router.SendAcks | crates/rumqttd/src/router/routing.rs:1413-1439 | The loop over the pending acknowledgements, and the wake-up |
| Routers.Router.ForwardDeviceData | crates/rumqttd/src/router/routing.rs:1461-1670 | Slots, retained messages, read, push and the answer, in place, or a panic; what that comes to is `RouterGiven.ForwardGives` |
| Routers.Router.Send | crates/rumqttd/src/router/routing.rs:1632-1656 | The push, and the Unschedule notification of a full buffer |
| Routers.Router.ConsumeNext | crates/rumqttd/src/router/routing.rs:1034-1092 | One turn of the loop over the requests |
| Routers.Router.Consume | crates/rumqttd/src/router/routing.rs:1002-1098 | One poll with its loop of at most 100 requests; it answers None exactly when the queue is empty or its first is gone |
| Routers.Router.AppendToCommitlog | crates/rumqttd/src/router/routing.rs:1228-1312 | In place, or a panic |
| Routers.Router.PrepareFilter | crates/rumqttd/src/router/routing.rs:917-996 | In place; a filter that is subscribed already gets no second request |
| Routers.Router.Subscribe | crates/rumqttd/src/router/routing.rs:652-713 | The loop over the filters, up to the first that is refused |
| Routers.Router.UnsubscribeFrom | crates/rumqttd/src/router/routing.rs:717-765 | One filter, only if the subscription map knows the connection |
| Routers.Router.OnAck | crates/rumqttd/src/router/routing.rs:767-802 | PUBACK and PUBREC: out of order ends the batch, in order makes room |
| Routers.Router.OnPubRel | crates/rumqttd/src/router/routing.rs:803-852 | The oldest recorded publish is appended |
| Routers.Router.HandleDevicePayload | crates/rumqttd/src/router/routing.rs:537-913 | The loop over the packets with its flags, and what is done with them afterwards, in that order; what that comes to for the device is `RouterDesk.PayloadIsServed` |
| Routers.Router.HandleDisconnection | crates/rumqttd/src/router/routing.rs:413-534 | In place, with the loops that forget the subscriptions and rewind the requests |
| Routers.Router.Save | crates/rumqttd/src/router/routing.rs:501-526 | The requests, tracked or parked, are rewound to what is unacknowledged and saved with the session |
| Routers.Router.StartSession | crates/rumqttd/src/router/routing.rs:306-395 | A new session, or the saved one with a PUBREL for each of its pending releases; what the connection starts with is `RouterLife.ConnectionStarts` |
| Routers.Router.HandleNewConnection | crates/rumqttd/src/router/routing.rs:270-403 | In place; the previous connection of the client is dropped first |
| Routers.Router.HandleLastWill | crates/rumqttd/src/router/routing.rs:1100-1155 | In place |
| Routers.Router.Handle | crates/rumqttd/src/router/routing.rs:237-268 | Dispatches an event; the new state is that of the step function |
| Links.RemoteLink.Drain | crates/rumqttd/src/link/remote.rs:151-168 | The loop that turns notifications into packets, in order, and notices Unschedule |
| Links.PacketsKeepForwards | crates/rumqttd/src/link/remote.rs:151-168 | It loses and reorders no forward and no acknowledgement, and leaves no request to be unscheduled among the packets |
| Links.ServingIsTwoSteps | crates/rumqttd/src/link/local.rs:412-432 | Taking the buffer and writing it out asks the router for a turn exactly if it held Unschedule |
| RouterPublish.PublishKeepsCore | crates/rumqttd/src/router/routing.rs:1228-1312 | Publishing to a topic that can be looked up keeps the invariant: logs grow, waiters become notifications, every request stays counted |
| RouterSchedule.DrainKeepsCore | crates/rumqttd/src/router/routing.rs:899-905 | Handing back keeps it and leaves no notification |
| RouterSubscribe.SubscribeAllKeepsCore | crates/rumqttd/src/router/routing.rs:652-713 | Subscribing keeps it: a new subscription gets one request, at the end of its log, and begins with what is accepted after it |
| RouterUnsubscribe.UnsubscribeAllKeepsCore | crates/rumqttd/src/router/routing.rs:714-766 | Unsubscribing keeps it while no request is among the notifications |
| RouterPackets.AckedKeepsCore | crates/rumqttd/src/router/iobufs.rs:167-183 | An acknowledgement, in order or not, keeps every request's account of what it has read |
| RouterBatch.PayloadKeepsInv | crates/rumqttd/src/router/routing.rs:537-913 | A whole batch that does not panic keeps it, if no Unsubscribe follows a publish or release in it |
| RouterBatch.BatchPanics | crates/rumqttd/src/router/routing.rs:561-630 | A batch that comes to an accepted publish or release whose topic cannot be looked up makes the router panic there and then |
| RouterBatch.LastWillKeepsInv | crates/rumqttd/src/router/routing.rs:1100-1155 | A last will whose topic can be looked up keeps it |
| RouterSessions.DisconnectionKeepsInv | crates/rumqttd/src/router/routing.rs:413-534 | Dropping a connection keeps it, and saves a session that satisfies it too |
| DeviceSpec.WithoutEnd | crates/rumqttd/src/router/routing.rs:767-866 | As long as no packet ends the connection, each is answered whatever is unacknowledged, and the packet ids to be completed at first, followed by those a PUBREC comes for, are those that are completed, in order, followed by those still to be |
| RouterDevice.PacketServed | crates/rumqttd/src/router/routing.rs:562-886 | Each packet that does not make the router panic is accepted and answered as `DeviceSpec` says from the packet and what is remembered of its sender: publishes as they were sent, one PUBACK, PUBREC, PUBREL, PUBCOMP, SUBACK, PINGRESP or UNSUBACK with the right packet id and codes; it ends the batch, disconnects, or takes out the will exactly when it should, and leaves every other connection alone |
| RouterDevice.PacketsServed | crates/rumqttd/src/router/routing.rs:562-886 | And so are the packets of a batch, one after the other, up to the first that ends it |
| RouterDevice.SubscribeAllRequests | crates/rumqttd/src/router/routing.rs:656-704 | A refused filter and those behind it get no request; a granted one that is new gets one, with the QoS that SUBACK grants, owed the retained messages |
| RouterDesk.PayloadIsServed | crates/rumqttd/src/router/routing.rs:537-914 | For every batch that does not make the router panic: the broker accepts exactly the allowed QoS 0 and QoS 1 publishes as they come and the recorded QoS 2 publishes as they are released, in order and as sent, up to the packet that ends the batch; the connection is dropped exactly if a packet disconnects it; otherwise it is committed to exactly the answers, and is scheduled if there are any |
| RouterDesk.DisconnectionDrops | crates/rumqttd/src/router/routing.rs:413-535 | Dropping a connection removes it from all maps; a lasting session is saved with its subscriptions and the packet ids still to be completed, and of a clean one nothing is left |
| RouterLife.ConnectionStarts | crates/rumqttd/src/router/routing.rs:270-403 | Whatever a client connects with: an invalid id changes nothing; otherwise its previous connection is dropped first; if there is room, it is let in ready and queued, and if it wants its saved session, the acknowledgements waiting are CONNACK with session present and then one PUBREL for each saved packet id, in order, with the saved requests and subscriptions; in all other cases one CONNACK without session present, and nothing of a saved session |
| RouterSessions.NewConnectionKeepsInv | crates/rumqttd/src/router/routing.rs:270-403 | A new connection keeps it, under any vacant key, resumed or not |
| RouterForward.ForwardKeeps | crates/rumqttd/src/router/routing.rs:1461-1670 | Forwarding for one request: window and buffer stay in order, the request moves on by what it was given, requests of other filters are untouched, and each answer means what it says |
| RouterGiven.ForwardGives | crates/rumqttd/src/router/routing.rs:1461-1648 | One read gives the retained messages the filter selects, if the request is still owed them, then the log from its cursor or the head on, exactly as many as the limit allows, each as appended and with the QoS of the request; those of a QoS above 0 enter the window and all the buffer, followed by one request to be unscheduled if it is full; the request stands behind what was read; the answer says which of these it was |
| RouterGiven.AllRetainedGivenIff | crates/rumqttd/src/router/routing.rs:1508-1520 | All retained messages a filter selects are given if and only if there are no more than the request may read at once, since it is owed none after that read |
| RouterConsume.ParkKeepsCore | crates/rumqttd/src/router/logs.rs:232-246 | Parking a request that has read its log to the end keeps the invariant |
| RouterConsume.ConsumeKeepsInv | crates/rumqttd/src/router/routing.rs:1002-1098 | A poll that does not panic keeps it, also when it takes the key of a connection that is gone or an old entry under a reused key |
| RouterConsume.LoopPanics | crates/rumqttd/src/router/logs.rs:272-308 | The loop over the requests panics as soon as one that is owed retained messages is read while there is one whose topic cannot be compared |
| RouterRun.StepKeepsGood | crates/rumqttd/src/router/routing.rs:198-268 | Every step of the router, the devices and the links that does not panic keeps the invariant |
| RouterRun.RunsAreGood | crates/rumqttd/src/router/routing.rs:198-235 | Every state of every run from a good state is good, as long as the router has not panicked |
| RouterRun.PanicsExactly | crates/rumqttd/src/router/routing.rs:198-268 | A step makes the router panic if and only if it is one of these: a Ready event whose connection is gone; an accepted publish, released publish or last will whose topic cannot be compared, with a filter there; a read of retained messages with such a topic among them |
| RouterPanics.PlainPanicsExactly | crates/rumqttd/src/router/scheduler.rs:62-81 | If the topics that a step may have to compare start with a character of one byte, it makes the router panic if and only if it handles a Ready event whose connection is gone |
| RouterRun.InitialGood | crates/rumqttd/src/router/routing.rs:111-152 | The router starts in a good state |
| RouterRun.BuildKeepsGood | crates/rumqttd/src/link/local.rs:140-152 | The builder of a link finds the connection acknowledgement first in the buffer |
| RouterLife.StepGoes | crates/rumqttd/src/router/routing.rs:198-268 | Any step of the router, of another device or of a link leaves a connection answered, recorded and subscribed as the packets it handles from it say, and makes it ready only as `Guarantees.PausedUntilAsked` says |
| RouterReplies.LifeAccounts | crates/rumqttd/src/router/routing.rs:537-914 | From the step that lets it in on, a connection has been committed to its greeting and the answers to the packets handled from it, in order, and to nothing else; what is recorded, subscribed and still to be completed follows from those packets |
| RouterReplies.EveryConnectionBegan | crates/rumqttd/src/router/routing.rs:270-403 | Every connection of a reachable state was let in by a step from a reachable state and has lived since |
| RouterReplies.EverySavedWasSaved | crates/rumqttd/src/router/routing.rs:469-526 | Every saved session was saved by a step that dropped its connection, with what that was still to complete, and has been kept as it was |
| RouterReplies.AcceptsExactly | crates/rumqttd/src/router/routing.rs:1228-1312 | Over every run, what is accepted is exactly what the batches and wills that are handled contribute, in that order |
| RouterReplies.WillOnce | crates/rumqttd/src/router/routing.rs:1100-1155 | Until a client is let in with another will, the one it left is published at most once, and not at all once it has been taken out |
| RouterOrder.InOrder | crates/rumqttd/src/router/routing.rs:1522-1648 | What a connection has been sent for a subscription comes from the log in order, without a repeat, as it was appended; it is everything from where the connection started up to the cursor but what it missed, and what it missed was dropped before it was read |
| RouterOrder.MissesIff | crates/rumqttd/src/router/routing.rs:1522-1535 | A read misses a position exactly if that is between its cursor and the head of the log |
| RouterOrder.NoGap | crates/rumqttd/src/router/routing.rs:1522-1581 | If no read of the connection has found its cursor behind the head, it is the stretch of the log from its start to the cursor, without a gap, whatever the log has dropped since |
| RouterOrder.SubscriptionBegins | crates/rumqttd/src/router/routing.rs:689-695 | From where a subscription first started, its log is exactly what was accepted since and matches its filter, wherever in a batch it was made |
| RouterOrder.EndToEndOrder | crates/rumqttd/src/router/routing.rs:1285-1308 | As long as no read has found its cursor behind the head, a connection has been sent exactly the publishes accepted since it subscribed that match its filter, in the order they were accepted, from where the connection started up to the cursor of its request |
| RouterOrder.ReceivedBetween | crates/rumqttd/src/router/routing.rs:1285-1308 | What a log receives between two states is what was accepted in between and matches its filter |
| RouterOrder.RunReceives | crates/rumqttd/src/router/routing.rs:1285-1308 | Over every run, a log receives exactly what is accepted and matches its filter, in that order |
| RouterOrder.SubscriptionStartsAtEnd | crates/rumqttd/src/router/routing.rs:689-695 | A new subscription reads from the end of its log on, and notes how much has been accepted |
| RouterOrder.LinkGetsAll | crates/rumqttd/src/link/local.rs:412-419 | What the link has taken, followed by what is still in its buffer, is what was sent |
| RouterOrder.NothingWaitsUnannounced | crates/rumqttd/src/link/local.rs:412-419 | A link that waits without a wake-up has seen everything ever put in its buffer, and has taken it all once it has taken the buffer |
| RouterOrder.BuilderLeavesIff | crates/rumqttd/src/link/local.rs:143-151 | The builder of a link takes one wake-up and one notification: it leaves the rest of the buffer without a wake-up exactly if there is a rest and it takes the last one |
| RouterOrder.WindowInEveryState | crates/rumqttd/src/router/iobufs.rs:101-183 | In every reachable state there are free slots or none, never fewer, and the packet ids in the window are consecutive and distinct, retained and log messages mixed or not |
| RouterOrder.LookupInEveryState | crates/rumqttd/src/router/logs.rs:127-173 | In every reachable state the topic cache equals the scan, for every topic that can be looked up |
| RouterOrder.ShapeInEveryState | crates/rumqttd/src/segments/mod.rs:33-57 | In every reachable state each log has the shape and the limits it was configured with |
| RouterWakeUps.NoLostWakeUp | crates/rumqttd/src/router/routing.rs:1034-1097 | Between events, a request with something to read is in its tracker, and its connection is queued, or has its window full, or a wake-up for it is on its way |
| RouterWakeUps.BusyComesBack | crates/rumqttd/src/link/remote.rs:149-168 | In every run in which the link of a connection paused as busy takes four of its own steps, with anything in between, it has asked for the connection, unless that was made ready or dropped before |
| RouterWakeUps.LinkCanGoOn | crates/rumqttd/src/link/remote.rs:149-168 | And that link can always take its next step |
| RouterWakeUps.AskingIsAnswered | crates/rumqttd/src/router/scheduler.rs:143-177 | Handling that request makes it ready and queues it |
| RouterWakeUps.AckBringsBack | crates/rumqttd/src/router/routing.rs:767-802 | An acknowledgement in order makes ready a connection that waits with its window full |
| RouterWakeUps.ServedInTurn | crates/rumqttd/src/router/scheduler.rs:34-45 | Whatever else happens, the connection at place k of the ready queue is taken by the (k+1)th poll |
| RouterWakeUps.RequestsInTurn | crates/rumqttd/src/router/routing.rs:1034-1097 | Within a poll, the request at place k of the tracker is the one read after k others |
| RouterWakeUps.EndsByPausing | crates/rumqttd/src/router/routing.rs:1034-1097 | A read ends the poll exactly if it pauses the connection or makes the router panic |
| RouterWakeUps.PollReadsOn | crates/rumqttd/src/router/routing.rs:1034-1097 | A poll that leaves its connection ready has read 100 times |
| RouterConservation.OneRequestEach | crates/rumqttd/src/router/routing.rs:972-988 | Between events every subscription of a live connection has exactly one request, in its tracker or among all waiters of all logs, and there are no notifications |
| RouterConservation.NoStrayRequest | crates/rumqttd/src/router/logs.rs:238-256 | Every request there is belongs to a live connection and one of its subscriptions |
| RouterConservation.RestartKeepsAtLeastOnce | crates/rumqttd/src/router/routing.rs:469-526 | A dropped connection's requests are all saved, each at the least log position of its filter that waits for an acknowledgement, or where it was; of what is in memory and unacknowledged, resuming there skips exactly what was lost to an acknowledgement out of order |
| RouterConservation.RewindsToLeast | crates/rumqttd/src/router/routing.rs:501-514 | The point of restart is that least position |
| RouterConservation.RequestIsSaved | crates/rumqttd/src/router/routing.rs:469-505 | A request is saved wherever it was, in the tracker or parked |
| RouterConservation.SavedKeepOneEach | crates/rumqttd/src/router/graveyard.rs:26-49 | A saved session has one request for each subscription, at a cursor its log still honours |
| RouterConservation.ResumesAsSaved | crates/rumqttd/src/router/routing.rs:306-395 | The resumed session is the saved one, ready and queued at once |
| RouterConservation.FirstReadAfterResume | crates/rumqttd/src/segments/mod.rs:173-268 | The first read after resumption starts at the saved position, or at the head of the log if that was dropped |
| RouterConservation.AckLosesIff | crates/rumqttd/src/router/iobufs.rs:167-177 | Whatever was lost before, an acknowledgement loses something exactly when it is not for the oldest entry and that entry came from a log |
| RouterConservation.AckIsEntered | crates/rumqttd/src/router/iobufs.rs:167-177 | Every acknowledgement that takes an entry is noted with it |
| RouterConservation.LosesNothingIff | crates/rumqttd/src/router/iobufs.rs:167-177 | In every reachable state, a session has lost nothing in its whole life if and only if every such acknowledgement was for the entry it took, or the entry came from no log |
| RouterConservation.SavedLosesNothingIff | crates/rumqttd/src/router/graveyard.rs:26-49 | The same of a session that is saved |
| RouterConservation.LedgerIsKept | crates/rumqttd/src/router/routing.rs:469-526 | What is noted goes with the session when its connection is dropped and when it is resumed |
| RouterConservation.OutOfOrderSkips | crates/rumqttd/src/router/iobufs.rs:167-177 | For instance, with two entries of one log in the window, an acknowledgement for another packet than the oldest loses that, and the session resumes after it |
| RouterQueue.QueueIsExact | crates/rumqttd/src/router/scheduler.rs:34-81 | If no key is given out while still queued, a ready connection is in the queue once and a paused one not at all |
| RouterRun.ReachableIsGood | crates/rumqttd/src/router/routing.rs:198-235 | Every state a new router can reach without panicking is good |
| Guarantees.EndToEnd | crates/rumqttd/src/router/routing.rs:1285-1308 | In every reachable state, whatever the log has dropped since: if no read of a connection has found its cursor behind the head, it has been sent from the log exactly the matching publishes accepted since it subscribed, in that order, up to the cursor of its request |
| Guarantees.SentInOrder | crates/rumqttd/src/router/routing.rs:1522-1648 | In every reachable state what a connection was sent follows its log in order without a repeat, and is everything but what was dropped before it was read |
| Guarantees.ReadsAreExact | crates/rumqttd/src/router/routing.rs:1461-1648 | In every reachable state, a read of any request gives exactly what `RouterGiven.ForwardGives` says |
| Guarantees.WindowsHoldWhatWasSent | crates/rumqttd/src/router/iobufs.rs:101-177 | In every reachable state, whatever a connection was sent, taken by its link or still in the buffer, is a publish as it was appended to the log of a filter, or a retained message that matches it; and what had a QoS above 0 has entered the window with its packet id, filter and position, and nothing else has |
| Guarantees.GivenOnceWithItsQos | crates/rumqttd/src/router/routing.rs:1508-1608 | In every reachable state, what a subscription has been given since its connection started has the QoS of its request; retained messages were given once, no topic twice, if they were owed, and none if they were not or still are |
| Guarantees.SavedIsOwedStill | crates/rumqttd/src/router/routing.rs:1508-1520 | In every reachable state, a saved request will be owed the retained messages at its next connection exactly if it has not been given them |
| Guarantees.RetainedIsLast | crates/rumqttd/src/router/routing.rs:1274-1278 | In every reachable state there is at most one retained message for a topic: the last publish of it accepted with retain set and a payload, unless one with an empty payload was accepted since |
| Guarantees.AcceptedIsWhatWasSent | crates/rumqttd/src/router/routing.rs:1228-1312 | In every state that a new router reaches, what has been accepted is exactly what devices sent and were allowed to, QoS 2 publishes when released, each as sent, and the wills published, in the order in which they were handled |
| Guarantees.AnswersAreExact | crates/rumqttd/src/router/routing.rs:537-914 | Every connection of a reachable state was let in by some step and has since been committed to its CONNACK, one PUBREL for each saved packet id, and the answers to all packets it sent, in order, and to no other acknowledgement; of the packet ids saved and those a PUBREC came for, in order, exactly those are still to be completed that no PUBCOMP came for |
| Guarantees.SavedReleasesAreExact | crates/rumqttd/src/router/graveyard.rs:26-49 | In every reachable state a saved session has the packet ids that its last connection was still to complete |
| Guarantees.NoAckIsLeft | crates/rumqttd/src/router/routing.rs:890-894 | In every reachable state a connection that rests has no acknowledgement to make |
| Guarantees.WillsArePublishedOnce | crates/rumqttd/src/router/routing.rs:1100-1155 | From every reachable state, until a client is let in with another will, the one it left is published at most once, as it was given, and never after a DISCONNECT |
| Guarantees.NobodySleepsOnUnread | crates/rumqttd/src/router/routing.rs:1034-1097 | In every reachable state a request with something to read is in its tracker and not parked, and its connection is queued, or waits with 100 publishes unacknowledged, or its wake-up is on its way |
| Guarantees.BusyIsAskedFor | crates/rumqttd/src/link/remote.rs:149-168 | From every reachable state, the link of a connection paused as busy can go on, and has asked for it in every run in which it takes four of its own steps, unless it was made ready or dropped before |
| Guarantees.LinksAreToldOfAll | crates/rumqttd/src/link/local.rs:412-419 | In every reachable state a link that waits without a wake-up has seen and taken all that was put in its buffer, but for what its builder left |
| Guarantees.PausedUntilAsked | crates/rumqttd/src/router/scheduler.rs:143-177 | A step from a reachable state makes a connection paused as busy ready only by a Ready event of its link, and one paused for its full window only by that or by a packet of its own that may make room |
| Guarantees.OneRequestPerSubscription | crates/rumqttd/src/router/routing.rs:972-988 | In every reachable state each subscription of a live connection has one request, in its tracker or parked, and none is in between |
| Guarantees.RequestsBelong | crates/rumqttd/src/router/logs.rs:238-256 | In every reachable state each request belongs to a live connection, one of its subscriptions, and the log of its filter |
| Guarantees.SessionOutlivesConnection | crates/rumqttd/src/router/routing.rs:469-526 | Dropping the connection of a persistent session, in any reachable state, saves each request at its point of restart, which skips, of what is in memory and unacknowledged, exactly what was lost; nothing was lost if and only if no acknowledgement was out of order |
| Guarantees.SavedSessionsKeep | crates/rumqttd/src/router/graveyard.rs:26-49 | In every reachable state a saved session has one request for each subscription, at a cursor its log still honours |
| Guarantees.WindowsAreInOrder | crates/rumqttd/src/router/iobufs.rs:101-183 | In every reachable state a window holds at most 100 entries, their packet ids between 1 and 100, distinct and cyclically consecutive |
| Guarantees.LookupsAreExact | crates/rumqttd/src/router/logs.rs:127-173 | In every reachable state a lookup that does not panic, cached or not, finds exactly the matching filters, once each |
| Guarantees.LogsAreBounded | crates/rumqttd/src/segments/mod.rs:33-57 | In every reachable state each log has at most the configured number of segments, which abut, with sizes accounted for and none over the limit by more than its last item; all but the last are at the limit, and something has been dropped only if there are as many as may be |
| Guarantees.ReadyIsQueued | crates/rumqttd/src/router/scheduler.rs:34-81 | In every reachable state, keys given out again included, a ready connection is queued |
| Guarantees.QueuedOnceWhileReady | crates/rumqttd/src/router/scheduler.rs:34-81 | In every state reached without giving out a key that is still queued, a connection is queued once if ready and not at all if paused |
| Guarantees.PanicsOnlySo | crates/rumqttd/src/router/scheduler.rs:62-81 | From a reachable state a step panics if and only if it is one of those that `RouterRun.PanicsExactly` lists, and with plain topics if and only if it handles a Ready event whose connection is gone; the assertion of `pause` never fails |
| RouterOnward.EventLeaves | crates/rumqttd/src/router/routing.rs:237-268 | Handling an event takes back no accepted publish, no log entry and no place in the ready queue |
| RouterOnward.ConsumeLeaves | crates/rumqttd/src/router/routing.rs:1002-1098 | A poll moves the queue on by one and leaves the logs' histories alone |
| RouterLimits.UnsubscribeLeavesWoken | crates/rumqttd/src/router/routing.rs:761-762 | An Unsubscribe within a batch takes back the subscription, and removes its request exactly if no publish of the same batch has woken it; otherwise the request is back at the end of the batch |
| RouterLimits.CompletesItsOwnIff | crates/rumqttd/src/router/iobufs.rs:189-199 | A PUBCOMP completes just its own packet id if and only if that is the oldest, or there is none to be completed |
| RouterLimits.CompletionOutOfTurn | crates/rumqttd/src/router/iobufs.rs:189-199 | For instance, with 1 and 2 to be completed, a PUBCOMP for 2 leaves 2 |
| RouterLimits.ReleasesItsOwnIff | crates/rumqttd/src/router/logs.rs:414-418 | A PUBREL releases the publish recorded under its packet id if and only if that is the oldest |
| RouterWitnesses.LateReadyPanics | crates/rumqttd/src/link/remote.rs:165-168 | A run of a new router in which a link finishes writing after its connection was dropped, and the router panics |
| RouterWitnesses.AccentPanics | crates/rumqttd/src/protocol/mod.rs:658 | A run of a new router in which one publish to a topic that starts with an accented letter makes it panic |
| RouterWitnesses.RetainedAccentPanics | crates/rumqttd/src/router/logs.rs:302-308 | A run in which such a publish is accepted, while there is no filter, and retained, and the first subscriber makes the router panic |
| RouterWitnesses.WaitsWithWork | crates/rumqttd/src/router/routing.rs:198-204 | A run of a new router to a state in which a removed connection is first in the queue, and the router waits for an event although another connection is ready |
| RouterLimits.WaitsWithWorkIff | crates/rumqttd/src/router/routing.rs:198-204 | With a connection ready, the router waits exactly if the first in its queue is gone; each time takes that out, and it waits no more often than there are other entries |
| Wire.ReadLength | crates/rumqttd/src/protocol/v5/mod.rs:216-253 | The loop decodes the variable byte integer |
| Wire.WriteRemainingLength | crates/rumqttd/src/protocol/v5/mod.rs:291-313 | The loop appends its bytes and counts them, and refuses a number that is too large before writing any |
| Wire.LengthRoundTrip | crates/rumqttd/src/protocol/v5/mod.rs:216-326 | A length that was written is read back, whatever follows, in `len_len` bytes (section 1.5.5 of MQTT 5.0) |
| Wire.LengthIsBounded | crates/rumqttd/src/protocol/v5/mod.rs:216-253 | Never more than 268435455; one more byte is asked for exactly if all bytes there continue, and the length is refused exactly if the first four do |
| Wire.VarIntLen | crates/rumqttd/src/protocol/v5/mod.rs:316-326 | `len_len` is the number of bytes |
| Wire.BytesRoundTrip | crates/rumqttd/src/protocol/v4/mod.rs:213-240 | A field of less than 64 KB is read back |
| Wire.LongFieldIsCut | crates/rumqttd/src/protocol/v4/mod.rs:237-240 | A longer one never is, since its length is written as 16 bits |
| Wire.CheckFindsFrame | crates/rumqttd/src/protocol/v4/mod.rs:113-147 | A whole frame at the front of a stream is found |
| Wire.CheckAsksForNoMore | crates/rumqttd/src/protocol/v4/mod.rs:113-147 | An incomplete one asks for at least one byte and at most those missing |
| V4.WritesFrame | crates/rumqttd/src/protocol/v4/publish.rs:44-67 | PUBLISH, SUBSCRIBE and UNSUBSCRIBE append one frame; the length declared and the count returned are those of its bytes |
| V4.PacketRoundTrip | crates/rumqttd/src/protocol/v4/mod.rs:290-341 | What was written is read back, and what follows it stays in the stream |
| V4.ReadSubscribeLoop | crates/rumqttd/src/protocol/v4/subscribe.rs:9-69 | The loop over the filters |
| V4.ReadUnsubscribeLoop | crates/rumqttd/src/protocol/v4/unsubscribe.rs:4-20 | The countdown loop: on a whole frame it reaches zero exactly with the end of the bytes |
| V4.SubscribeNeedsFilter | crates/rumqttd/src/protocol/v4/subscribe.rs:16-19 | Of the SUBSCRIBE packets that can be written, exactly those with a filter are read back |
| V4.MissingPkidSpoilsBuffer | crates/rumqttd/src/protocol/v4/publish.rs:55-59 | A publish that lacks its packet id fails with the head of a packet left in the buffer |
| Framing.Network.ReadBytes | crates/rumqttd/src/link/network.rs:72-92 | Reads until enough bytes have come, or says how the peer closed |
| Framing.Network.Read | crates/rumqttd/src/link/network.rs:95-111 | The loop that waits for one packet |
| Framing.Network.Readv | crates/rumqttd/src/link/network.rs:115-132 | The loop that takes the packets that are there, up to a limit |
| Framing.NextPacketArrives | crates/rumqttd/src/link/network.rs:95-111 | However its bytes are cut up, the next packet is what is read, and nothing that follows is lost |
| Framing.IncompleteFrame | crates/rumqttd/src/protocol/v4/mod.rs:290-294 | An incomplete frame leaves the stream as it is and asks for one to as many bytes as are missing |
| Framing.FramingRoundTrip | crates/rumqttd/src/link/network.rs:95-132 | For any list of packets and any cutting of the writer's output, the link gets exactly that list, and then sees the peer close between two packets |
| V5Properties.ReadPropsLoop | crates/rumqttd/src/protocol/v5/publish.rs:151-196 | The loop over the properties with its cursor |
| V5Properties.PropsReadBack | crates/rumqttd/src/protocol/v5/publish.rs:151-196 | What reading a written list gives, exactly: the properties before the cursor runs past the end, the bytes of the others left in the stream |
| V5Properties.RecordRoundTrip | crates/rumqttd/src/protocol/v5/publish.rs:136-259 | A record listed in the writer's order is gathered again by the reader |
| V5.WritePropsLoop | crates/rumqttd/src/protocol/v5/publish.rs:214-259 | The writer property by property, stopping at an identifier that is too large |
| V5.WritesPublish5 | crates/rumqttd/src/protocol/v5/publish.rs:5-93 | The length declared and the count returned are those of the bytes written |
| V5.Publish5RoundTrip | crates/rumqttd/src/protocol/v5/publish.rs:24-93 | With at most one subscription identifier, a publish is read back, up to an empty record being none (section 3.3 of MQTT 5.0) |
| V5.Publish5RoundTripIff | crates/rumqttd/src/protocol/v5/publish.rs:186-190 | In general it is read back if and only if, with a content type, there are fewer identifiers than that takes bytes, and without one, fewer before the last than the last takes bytes |
| V5.ThirdSubscriptionIsLost | crates/rumqttd/src/protocol/v5/publish.rs:186-190 | Three small identifiers without a content type are one too many: the publish is not read back |
| V5.WritesConnect | crates/rumqttd/src/protocol/v5/connect.rs:53-126 | Into an empty buffer CONNECT is one frame with the right flags; the length declared and the count returned are those of its bytes |
| V5.ConnectRoundTrip | crates/rumqttd/src/protocol/v5/connect.rs:7-51 | And it is read back, up to empty records and an empty login being none (section 3.1 of MQTT 5.0) |
| V5.ConnectNeedsEmptyBuffer | crates/rumqttd/src/protocol/v5/connect.rs:96-124 | Behind other bytes the frame comes out right if and only if there was nothing to correct and the overwritten byte has that value |
| V5.FlagBits | crates/rumqttd/src/protocol/v5/connect.rs:99-124 | The connect flags keep their meanings apart |

## Left out

- Shared subscriptions (`router/shared_subs.rs`): groups, their strategies and the `SkipRequest` answer.
- Message expiry, will delay timers, timestamps, meters, alerts, metrics kept with a saved session, and print or shadow requests.
- Publish properties inside the router: topic aliases on forwards, subscription identifiers and user properties do not change which publishes go where.
- Broker topic aliases are modelled as an allocator only (`Aliases`); `set_new_alias` is used, as the router does, for topics without one.
- Tenants, the access handler and UTF-8 errors of topics: whether a publish or subscription is let through is a flag of the packet.  The access handler compares topics with `matches` too (`src/acl/mod.rs:149`), and panics on the same ones.
- Disconnect notifications to a client that is being dropped.
- The five slabs of the router are one map, since the source asserts that their keys agree; the key of a new connection is any vacant one.
- An entry of that map is borrowed into an object of class `Outgoing` or `Waiters` and put back; the scheduler's methods are methods of `Router`, and the tracker, the acknowledgement log and the saved state are values.
- Commit logs inside the data log are values; the class `CommitLog` is proved against the same functions.
- Retained messages are kept in a list, which fixes an order the source leaves to its hash map; so does the order of a topic scan.
- Incoming packets travel with their event; in the source they wait in a buffer that the event points to.
- The limits of 500 events and 100 polls in a round of the main loop: a run interleaves them freely.
- Offsets, sizes and counters are unbounded; the source's are 64 bits wide.
- `debug_assert!` checks of the scheduler, which release builds do not contain.
- Initial filters and per-filter segment sizes from the configuration.
- The clock, time-outs and cancellation of the network loops; the socket is a list of pieces of bytes.
- Of the other packet types, version 4 frames are cut but not read further, and version 5 packets other than PUBLISH and CONNECT are not modelled; their property loops repeat those that are.
- A property record of version 5 is a map from property number to value instead of a structure with one field for each.
- RouterBatch.PayloadKeepsInv: does not cover an Unsubscribe after a publish or release in the same batch, after which a request may be left without a subscription; `RouterLimits.UnsubscribeLeavesWoken` says exactly when.
- RouterUnsubscribe.UnsubscribeAllKeepsCore: is about batches in which nothing has been woken yet, for the same reason.
- LogSpec.ReadV: takes any cursor; the source's cast of offsets to `usize` is not modelled.
- RouterWakeUps.BusyComesBack: leaves it to the scheduler of tasks to let the link take its steps.
- HTTP, database, monitoring and user interface of the server, and the bridge, console and replication plumbing of the broker.
