# Websocket room relay, modelled in Dafny

A room relay keeps two tables: `connections`, which maps a connection id to the
socket of that connection, and `rooms`, which maps a room name to the set of
ids in the room. A client sends JSON messages whose `type` is `join_room`,
`leave_room`, `send_room`, `send_user` or (in one version) `get_info`. The relay
changes the two tables and sends JSON messages to chosen recipients. When a
connection closes, the relay removes its id from everywhere and tells the rooms
it was in.

The repository has two independent versions, and each is modelled on its own:

- `RoomServer` models the class `WebSocketRoomServer` of `app/server.py`. It
  deletes rooms that become empty. It announces a join to every member after
  the insert, the joiner included (despite its comment "notify the other
  members"). Errors raised inside a handler go through `send_error_to`.
- `GlobalRooms` models the module-level dictionaries of `app/websockets.py`. It
  keeps empty rooms. It announces a join only to the members who were there
  before. After every change it sends the whole room table (`active_rooms`) to
  every connection. `get_info` is an unknown type there.

The project has five modules:

- `Protocol` holds the parsed inbound messages (`Inbound`), the outbound
  messages (`Msg`) and the exact error texts.
- `Delivery` says what a sequence of sends puts on the wire. The outbox is the
  sequence of `(recipient, message)` deliveries. An `Emit` is one message for a
  set of recipients: each recipient gets it exactly once, in no particular
  order, because Python iterates over sets. `Sent(before, after, emits)` says
  the outbox grew from `before` to `after` by those Emits, in order.
- `RoomTable` holds the table operations both versions share: join, purge and
  broadcast recipients, and the `user_left` notices of a disconnect.
- `RoomServer` and `GlobalRooms` hold the two relays.

Each relay module works in two layers:

- Each handler is a function from the tables before to a `Step`: the tables
  after, and the Emits in order. Lemmas state what the relay promises about
  these Steps.
- A class (`WebSocketRoomServer`, `Relay`) holds the tables as fields and
  changes them in place. Each of its methods is proved to perform exactly the
  Step of its handler (`Performed`).

The class also keeps a ghost set `issued` of every id ever registered, so ids
are never reused. `Handler` models one whole websocket session: connect, see
the inbound messages in turn until the input ends or a message ends the
session, then clean up once at the end. It is proved to perform `HandlerStep`,
which chains the connect Step, the `Session` fold of the dispatch Steps over
the messages read (`SessionLength` of them) and the cleanup Step.

## Model

| member | source | states |
|---|---|---|
| Delivery.RealizesReceived | app/server.py:90-96 | the outbox holds `(x, m)` exactly as many times as the Emits deliver `m` to `x`: once per recipient of each Emit, never to anyone else |
| Delivery.SentUnicast | app/server.py:84-88 | a `send_to` appends one delivery if its target is registered and nothing otherwise |
| RoomTable.BroadcastRecipients | app/websockets.py:35-40 | with no dangling members a broadcast reaches exactly the room's members, and nobody for an absent room |
| RoomTable.JoinIdempotent | app/server.py:103-104 | adding a member twice gives the same table as adding it once |
| RoomTable.LeftNoticesReceived | app/server.py:226-237 | the disconnect notices over distinct rooms reach each remaining registered member of each visited room that held the id, once, saying `user_left`, and nothing else |
| RoomTable.SessionLength | app/server.py:45-70 | a session reads its messages up to and including the first that ends it, or all of them when none does |
| Protocol.ErrorTextDistinguishes | app/server.py:55-61 | two refusals with the same text are the same refusal, except that a missing message type and the type "None" print the same "Type de message inconnu: None" |
| RoomTable.LeftNoticesOncePerRoom | app/websockets.py:205-215 | over any enumeration of the whole table, each room that held the id tells each of its remaining registered members once |
| RoomServer.JoinRoomAddsAndNotifies | app/server.py:98-119 | a join with a room name adds the sender, creating the room if absent; other rooms and the registry are unchanged; `user_joined` goes to every member after the insert, joiner included, then `joined_room` to the joiner |
| RoomServer.JoinRoomRefused | app/server.py:98-101 | a join without a room name gets one "room name required" error and changes nothing |
| RoomServer.JoinRoomIdempotent | app/server.py:103-104 | joining twice leaves the same tables as joining once |
| RoomServer.LeaveRoomRefused | app/server.py:121-127 | without a room name, or when the sender is not in the room, the only effect is one error to the sender, and both tables are unchanged |
| RoomServer.LeaveRoomRemovesAndNotifies | app/server.py:129-149 | a leave by a member removes it; the room is deleted exactly when the sender was its only member; `user_left` goes to the remaining members only, then `left_room` to the sender |
| RoomServer.LeaveRoomTwiceRefused | app/server.py:121-149 | after a successful leave, the same leave is refused with "not in this room" and changes nothing |
| RoomServer.SendRoomDelivers | app/server.py:151-166 | a member's `room_message` goes to every member, sender included, with payload defaulting to `{}`; a non-member or a missing room name gets one error and nothing changes |
| RoomServer.SendUserDelivers | app/server.py:168-182 | `user_message` goes to exactly the target; a missing or unregistered target gets one error; nothing changes |
| RoomServer.GetInfoAnswers | app/server.py:184-206 | exactly one message to the sender and no change; `current_users` with the room's member set exactly when a member asks for "users"; otherwise the error of the first failed check, in the source's order |
| RoomServer.DispatchUnhandled | app/server.py:45-66 | an unknown type or invalid JSON gets one error on the sender's socket; valid JSON that is not an object ends the session |
| RoomServer.DispatchKeepsRegistry | app/server.py:45-61 | no handler changes the connection registry |
| RoomServer.DispatchPreservesInvariant | app/server.py:45-61 | every handler keeps the invariant: every member is registered and no room is empty |
| RoomServer.ConnectPreservesInvariant | app/server.py:35-43 | registering a fresh id keeps the invariant and adds exactly that id |
| RoomServer.CleanupRemoves | app/server.py:221-241 | after cleanup the id is unregistered and in no room; the rooms that held only it are gone; every other room keeps its other members; the invariant holds |
| RoomServer.CleanupNotifies | app/server.py:226-237 | whatever the room order, cleanup sends one `user_left` to each remaining member of each room the id was in, and nothing else |
| RoomServer.DispatchMembership | app/server.py:98-149 | after one message the sender is in a room exactly if the message joined it, or left it not, or else it already was |
| RoomServer.DispatchOthersUnaffected | app/server.py:98-149 | one message changes no one's membership of any room but the sender's, even when a leave deletes the room |
| RoomServer.MembershipFollowsLastTouch | app/server.py:45-61 | after any sequence of messages (the `Session` fold) the sender is in a room exactly when its last join or leave of that room was a join, or there was none and it already was |
| RoomServer.SessionKeepsOthers | app/server.py:45-61 | a session keeps the registry and the invariant, and every other connection's memberships |
| RoomServer.HandlerMembership | app/server.py:31-61 | at the end of a connection's session, before cleanup, it is in a room exactly when its last join or leave of that room among the messages read was a join |
| RoomServer.HandlerLeavesNoTrace | app/server.py:31-71 | a whole connection leaves the registry as it found it, its id in no room, every other connection's memberships unchanged and the invariant intact; its first delivery is `connection_id` |
| RoomServer.WebSocketRoomServer.constructor | app/server.py:12-29 | both tables start empty |
| RoomServer.WebSocketRoomServer.SendJson | app/server.py:73-78 | appends the one delivery to the outbox |
| RoomServer.WebSocketRoomServer.SendTo | app/server.py:80-88 | appends the delivery if the id is registered and nothing otherwise |
| RoomServer.WebSocketRoomServer.SendErrorTo | app/server.py:215-219 | the error reaches the id only if it is registered |
| RoomServer.WebSocketRoomServer.BroadcastToRoom | app/server.py:90-96 | the sends are one fan-out to the registered members of the room |
| RoomServer.WebSocketRoomServer.SendEach | app/server.py:95-96 | the new deliveries are one per registered member of the snapshot, whatever the iteration order |
| RoomServer.WebSocketRoomServer.Connect | app/server.py:35-43 | registers the fresh id, records it as issued, and sends it its id |
| RoomServer.WebSocketRoomServer.HandleJoinRoom | app/server.py:98-119 | performs exactly the join Step |
| RoomServer.WebSocketRoomServer.HandleLeaveRoom | app/server.py:121-149 | performs exactly the leave Step, deleting the room after the sends when it is empty |
| RoomServer.WebSocketRoomServer.AnnounceLeave | app/server.py:133-145 | the sends are `user_left` to the room's registered members, then `left_room` to the sender if registered |
| RoomServer.WebSocketRoomServer.HandleSendRoom | app/server.py:151-166 | performs exactly the send_room Step |
| RoomServer.WebSocketRoomServer.HandleSendUser | app/server.py:168-182 | performs exactly the send_user Step |
| RoomServer.WebSocketRoomServer.HandleGetInfo | app/server.py:184-197 | performs exactly the get_info Step |
| RoomServer.WebSocketRoomServer.SendRoomUsers | app/server.py:199-206 | sends the room's member set to the id if it is registered |
| RoomServer.WebSocketRoomServer.Receive | app/server.py:45-61 | performs the Step of the message and keeps the invariant; returns false exactly when the message ends the session |
| RoomServer.WebSocketRoomServer.CleanupConnection | app/server.py:221-241 | leaves the cleaned tables and keeps the invariant; the sends are the `user_left` notices for some enumeration of the rooms |
| RoomServer.WebSocketRoomServer.LeaveEveryRoom | app/server.py:225-237 | removes the id from every room, lists exactly the rooms this empties, and sends the notices in the order visited |
| RoomServer.WebSocketRoomServer.VisitRoom | app/server.py:226-237 | one more room handled keeps the loop's state description |
| RoomServer.WebSocketRoomServer.LeaveOne | app/server.py:227-237 | removes the id from one room, notifies the rest, and reports whether the room is now empty |
| RoomServer.WebSocketRoomServer.DeleteRooms | app/server.py:240-241 | deletes exactly the named rooms and leaves the others as they were |
| RoomServer.WebSocketRoomServer.Handler | app/server.py:31-71 | the tables after a whole session are those of `HandlerStep` and the sends are its Emits, for some enumeration of the rooms at cleanup; the id is issued and the invariant holds |
| RoomServer.WebSocketRoomServer.Serve | app/server.py:45-67 | the loop stops after the first message that ends the session or at the end of the input; the tables are then the `Session` of the messages read and the sends are its Emits; the invariant holds |
| GlobalRooms.JoinRoomAddsAndNotifies | app/websockets.py:46-74 | a join adds the sender, creating the room if absent; `user_joined` goes to the members present before the insert; then `joined_room` to the joiner and `active_rooms` with the new table to every connection |
| GlobalRooms.JoinRoomRefused | app/websockets.py:50-53 | a join without a room name gets one error on the sender's socket and changes nothing |
| GlobalRooms.JoinRoomSelfNotice | app/websockets.py:59-69 | the joiner gets its own `user_joined` exactly when it was already in the room, so a first-time joiner is not told about itself |
| GlobalRooms.JoinRoomIdempotent | app/websockets.py:55-69 | joining twice leaves the same tables as joining once |
| GlobalRooms.LeaveRoomRefused | app/websockets.py:76-87 | without a room name, or when the sender is not in the room, the only effect is one error on the sender's socket |
| GlobalRooms.LeaveRoomRemovesAndNotifies | app/websockets.py:89-103 | a leave by a member removes it and keeps every room, the now possibly empty one included; `user_left` goes to the remaining members, then `left_room` to the sender and `active_rooms` to everyone |
| GlobalRooms.LeaveRoomKeepsEmptyRoom | app/websockets.py:89-90 | the last member leaving leaves an empty room in the table |
| GlobalRooms.LeaveRoomTwiceRefused | app/websockets.py:76-103 | after a successful leave, the same leave is refused and changes nothing |
| GlobalRooms.SendRoomDelivers | app/websockets.py:105-128 | a member's `room_message` goes to every member, sender included; a non-member gets one error and nothing changes |
| GlobalRooms.SendUserDelivers | app/websockets.py:130-155 | `user_message` goes to exactly the target; a missing or unregistered target gets one error; nothing changes |
| GlobalRooms.DispatchUnhandled | app/websockets.py:172-199 | `get_info`, an unknown type or invalid JSON gets one error on the sender's socket; valid JSON that is not an object ends the session |
| GlobalRooms.DispatchKeepsRegistry | app/websockets.py:172-194 | no handler changes the connection registry |
| GlobalRooms.DispatchPreservesConsistent | app/websockets.py:172-194 | every handler keeps every member registered |
| GlobalRooms.TableBroadcastCurrent | app/websockets.py:73-74 | a join or leave ends with `active_rooms` exactly when it succeeded, and that message carries the table as it is after the change, sent to every connection |
| GlobalRooms.ConnectPreservesConsistent | app/websockets.py:164-170 | connecting registers exactly the new id, sends it its id and then the table to every connection, itself included |
| GlobalRooms.CleanupRemoves | app/websockets.py:201-207 | after a disconnect the id is unregistered and in no room, and every room is still there with its other members |
| GlobalRooms.CleanupNotifies | app/websockets.py:201-217 | whatever the room order, a disconnect sends one `user_left` to each remaining member of each room the id was in, then the table to every remaining connection, and nothing else |
| GlobalRooms.DispatchMembership | app/websockets.py:46-103 | after one message the sender is in a room exactly if the message joined it, or left it not, or else it already was |
| GlobalRooms.DispatchOthersUnaffected | app/websockets.py:46-103 | one message changes no one's membership of any room but the sender's |
| GlobalRooms.MembershipFollowsLastTouch | app/websockets.py:172-194 | after any sequence of messages (the `Session` fold) the sender is in a room exactly when its last join or leave of that room was a join, or there was none and it already was |
| GlobalRooms.SessionKeepsOthers | app/websockets.py:172-194 | a session keeps the registry and every member registered, deletes no room, and keeps every other connection's memberships |
| GlobalRooms.HandlerMembership | app/websockets.py:160-194 | at the end of a connection's session, before the `finally` block, it is in a room exactly when its last join or leave of that room among the messages read was a join |
| GlobalRooms.HandlerLeavesNoTrace | app/websockets.py:160-219 | a whole connection leaves the registry as it found it, its id in no room, every room still there, every other connection's memberships unchanged; its first delivery is `connection_id` and its last the room table to every remaining connection |
| GlobalRooms.RoomsNeverVanish | app/websockets.py:76-103 | no handler and no disconnect deletes a room |
| GlobalRooms.Relay.constructor | app/websockets.py:11-12 | both dictionaries start empty |
| GlobalRooms.Relay.SendJson | app/websockets.py:73 | appends the one delivery to the outbox |
| GlobalRooms.Relay.SendTo | app/websockets.py:24-33 | appends the delivery if the id is registered and nothing otherwise |
| GlobalRooms.Relay.BroadcastRooms | app/websockets.py:14-22 | the sends are one fan-out of the current table to every registered connection |
| GlobalRooms.Relay.SendEachSocket | app/websockets.py:18-22 | the new deliveries are one per target, whatever the order |
| GlobalRooms.Relay.BroadcastToRoom | app/websockets.py:35-40 | the sends are one fan-out to the registered members of the room; an absent room gets nothing |
| GlobalRooms.Relay.SendEach | app/websockets.py:39-40 | the new deliveries are one per registered member of the copy, whatever the order |
| GlobalRooms.Relay.Connect | app/websockets.py:164-170 | registers the fresh id, records it as issued, and performs the connect Step |
| GlobalRooms.Relay.HandleJoinRoom | app/websockets.py:46-74 | performs exactly the join Step |
| GlobalRooms.Relay.HandleLeaveRoom | app/websockets.py:76-103 | performs exactly the leave Step |
| GlobalRooms.Relay.HandleSendRoom | app/websockets.py:105-128 | performs exactly the send_room Step |
| GlobalRooms.Relay.HandleSendUser | app/websockets.py:130-155 | performs exactly the send_user Step |
| GlobalRooms.Relay.Receive | app/websockets.py:173-194 | performs the Step of the message and keeps every member registered; returns false exactly when the message ends the session |
| GlobalRooms.Relay.Cleanup | app/websockets.py:201-217 | leaves the cleaned tables; the sends are the `user_left` notices for some enumeration of the rooms, then the table |
| GlobalRooms.Relay.LeaveEveryRoom | app/websockets.py:205-215 | removes the id from every room and sends the notices in the order visited |
| GlobalRooms.Relay.VisitRoom | app/websockets.py:205-215 | one more room handled keeps the loop's state description |
| GlobalRooms.Relay.LeaveOne | app/websockets.py:206-215 | removes the id from one room and notifies the rest of it |
| GlobalRooms.Relay.Handler | app/websockets.py:160-219 | the tables after a whole session are those of `HandlerStep` and the sends are its Emits, for some enumeration of the rooms in the `finally` block; the id is issued and every member is registered |
| GlobalRooms.Relay.Serve | app/websockets.py:172-199 | the loop stops after the first message that ends the session or at the end of the input; the tables are then the `Session` of the messages read and the sends are its Emits; every member stays registered |

## Left out

- Concurrency: each handler, and each cleanup, is one atomic step. The
  interleavings between `await`s of concurrent sessions are not modelled.
- Transport: sockets are opaque handles. Server start-up, routes, `run` and
  `main` are not modelled, and neither is the self-import `app.server` used to
  reach `serve` and `exceptions`.
- Frame kinds: the model only sees text frames. In app/websockets.py binary
  and ERROR frames are skipped (lines 174 and 195-196). In app/server.py a
  binary frame arrives as `bytes`, which `json.loads` also parses; bytes that
  are not valid UTF-8 raise `UnicodeDecodeError`, which is not a
  `JSONDecodeError`, so that frame ends the session (lines 48-70) instead of
  getting the "JSON invalide" error that `InvalidJson` models.
- Failed sends: every send succeeds. In the source `send_json` and `send_to`
  log and swallow a failed send, and `broadcast_rooms` swallows it with a bare
  `except: pass` and logs nothing. In app/websockets.py a failing direct
  `ws.send_json` inside a handler would end the session.
- Logging: not modelled.
- `uuid.uuid4()`: the id is supplied by the caller, who must give one never
  issued before.
- JSON text: parsing and serialisation are not modelled. Inbound messages
  arrive already classified (`Inbound`), and outbound ones are `Msg` values.
- Non-string values in the `type`, `room`, `to` and `info` fields: every field
  is an optional string. What such a value does depends on the field. In
  app/server.py an unhashable `type` or `room` (a list, say) raises in a
  dictionary lookup and ends the session, while a truthy non-string `info` is
  compared with "users" only and gets the unknown-information error. In
  app/websockets.py `type` is compared with `==` only, so any non-string type
  gets the unknown-type error. None of these cases is modelled.
- Member lists in `current_users` and `active_rooms`: they are sets, because
  the source builds them from sets in no particular order.
- RoomServer.WebSocketRoomServer.CleanupConnection: the rooms may be visited in any order that lists each room once. Python's dictionary insertion order is not part of the model.
- GlobalRooms.Relay.Cleanup: the rooms may be visited in any order that lists each room once. Python's dictionary insertion order is not part of the model.
