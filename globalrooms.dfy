/**
 * The relay of app/websockets.py: the same protocol kept in two module-level
 * dictionaries. It differs from the class-based relay in that errors and
 * confirmations are written straight to the sender's socket; a join is
 * announced only to the members already in the room, before the joiner is
 * added; rooms left empty are kept; after every connect, successful join,
 * successful leave and disconnect the whole room table is sent to every
 * connection (`broadcast_rooms`); and `get_info` is not a known type.
 *
 * As for the other relay, each handler is first a function to a Step, the
 * lemmas state its properties, and the class Relay changes the two tables
 * in place and is proved to perform exactly those Steps.
 */
module GlobalRooms {
  import opened Protocol
  import opened Delivery
  import opened RoomTable

  /** `broadcast_rooms`: the whole room table, to every registered connection. */
  function RoomsNotice(t: Tables): Emit
  {
    Emit(t.connections.Keys, ActiveRooms(t.rooms))
  }

  /** An error written to the sender's own socket. */
  function Refuse(t: Tables, sender: Id, kind: ErrorKind): Step
  {
    Step(t, [Direct(sender, Error(kind))])
  }

  /** The start of `websocket_handler`: register, send the id, then the room table to everyone. */
  function ConnectStep(t: Tables, id: Id, socket: Handle): Step
  {
    var t' := t.(connections := t.connections[id := socket]);
    Step(t', [Direct(id, ConnectionId(id)), RoomsNotice(t')])
  }

  function JoinRoomStep(t: Tables, sender: Id, room: Option<string>): Step
  {
    if !Given(room) then Refuse(t, sender, RoomRequired)
    else
      var name := room.value;
      var t' := t.(rooms := Join(t.rooms, name, sender));
      Step(t', [Broadcast(t, name, UserJoined(sender, name)),
                Direct(sender, JoinedRoom(name)),
                RoomsNotice(t')])
  }

  function LeaveRoomStep(t: Tables, sender: Id, room: Option<string>): Step
  {
    if !Given(room) then Refuse(t, sender, RoomRequired)
    else if !IsMember(t.rooms, room.value, sender) then Refuse(t, sender, NotInRoom)
    else
      var name := room.value;
      var t' := t.(rooms := t.rooms[name := t.rooms[name] - {sender}]);
      Step(t', [Broadcast(t', name, UserLeft(sender, name)),
                Direct(sender, LeftRoom(name)),
                RoomsNotice(t')])
  }

  function SendRoomStep(t: Tables, sender: Id, room: Option<string>, payload: Option<Json>): Step
  {
    if !Given(room) then Refuse(t, sender, RoomRequired)
    else if !IsMember(t.rooms, room.value, sender) then Refuse(t, sender, NotInRoom)
    else Step(t, [Broadcast(t, room.value, RoomMessage(room.value, sender, PayloadOrEmpty(payload)))])
  }

  function SendUserStep(t: Tables, sender: Id, to: Option<string>, payload: Option<Json>): Step
  {
    if !Given(to) then Refuse(t, sender, RecipientMissing)
    else if to.value !in t.connections then Refuse(t, sender, RecipientUnknown)
    else Step(t, [Unicast(t.connections, to.value, UserMessage(sender, PayloadOrEmpty(payload)))])
  }

  /** The dispatch of `websocket_handler`: four known types; anything else, `get_info` included,
    * is an unknown type. */
  function DispatchStep(t: Tables, sender: Id, msg: Inbound): Dispatched
  {
    match msg
    case JoinRoom(room) => Continue(JoinRoomStep(t, sender, room))
    case LeaveRoom(room) => Continue(LeaveRoomStep(t, sender, room))
    case SendRoom(room, payload) => Continue(SendRoomStep(t, sender, room, payload))
    case SendUser(to, payload) => Continue(SendUserStep(t, sender, to, payload))
    case GetInfo(_, _) => Continue(Refuse(t, sender, UnknownType(Some("get_info"))))
    case Unknown(msgType) => Continue(Refuse(t, sender, UnknownType(msgType)))
    case InvalidJson => Continue(Refuse(t, sender, MalformedJson))
    case NotAnObject => Close
  }

  /** The tables after a disconnect of `id`: unregistered, and removed from
    * every room; rooms it leaves empty stay. */
  function Cleaned(t: Tables, id: Id): Tables
  {
    Tables(t.connections - {id}, PurgeKeeping(t.rooms, id))
  }

  /** The `finally` block, visiting the rooms in `order`. */
  function CleanupStep(t: Tables, id: Id, order: seq<RoomName>): Step
  {
    var c := Cleaned(t, id);
    Step(c, LeftNotices(t.rooms, c.connections, id, order) + [RoomsNotice(c)])
  }

  /** The tables after `sender`'s messages are dispatched in turn, and
    * everything the dispatches sent, in order. A message that ends the
    * session changes nothing and sends nothing. */
  function Session(t: Tables, sender: Id, msgs: seq<Inbound>): Step
    decreases |msgs|
  {
    if msgs == [] then Step(t, [])
    else
      var before := Session(t, sender, msgs[..|msgs| - 1]);
      var last := Outcome(before.after, DispatchStep(before.after, sender, msgs[|msgs| - 1]));
      Step(last.after, before.emits + last.emits)
  }

  /** Sends that realize a session so far, followed by those of its next
    * message, realize the longer session. */
  lemma SentSessionStep(t: Tables, sender: Id, msgs: seq<Inbound>, i: nat, o0: Outbox, o1: Outbox, o2: Outbox)
    requires i < |msgs|
    requires Sent(o0, o1, Session(t, sender, msgs[..i]).emits)
    requires var before := Session(t, sender, msgs[..i]).after;
      Sent(o1, o2, Outcome(before, DispatchStep(before, sender, msgs[i])).emits)
    ensures Sent(o0, o2, Session(t, sender, msgs[..i + 1]).emits)
  {
    assert msgs[..i + 1][..i] == msgs[..i];
    var before := Session(t, sender, msgs[..i]).after;
    SentChain(o0, o1, o2, Session(t, sender, msgs[..i]).emits, Outcome(before, DispatchStep(before, sender, msgs[i])).emits);
  }

  /** The `user_left` notices followed by the table broadcast are the sends
    * of the `finally` block. */
  lemma SentCleanup(t: Tables, id: Id, order: seq<RoomName>, o0: Outbox, o1: Outbox, o2: Outbox)
    requires Sent(o0, o1, LeftNotices(t.rooms, Cleaned(t, id).connections, id, order))
    requires Sent(o1, o2, [RoomsNotice(Cleaned(t, id))])
    ensures Sent(o0, o2, CleanupStep(t, id, order).emits) && o0 <= o2
  {
    SentChain(o0, o1, o2, LeftNotices(t.rooms, Cleaned(t, id).connections, id, order), [RoomsNotice(Cleaned(t, id))]);
    SentGrows(o0, o2, CleanupStep(t, id, order).emits);
  }

  /** `websocket_handler` for a fresh connection `id` whose socket yields
    * `msgs`: register it, dispatch the messages the session reads, then
    * run the `finally` block visiting the rooms in `order`. */
  function HandlerStep(t: Tables, id: Id, socket: Handle, msgs: seq<Inbound>, order: seq<RoomName>): Step
  {
    var c := ConnectStep(t, id, socket);
    var s := Session(c.after, id, msgs[..SessionLength(msgs)]);
    var k := CleanupStep(s.after, id, order);
    Step(k.after, c.emits + s.emits + k.emits)
  }

  // ---------------------------------------------------------------------
  // What the handlers promise

  /** A join adds the sender; the members already there, and only they,
    * hear of it; then everyone gets the new table. */
  lemma JoinRoomAddsAndNotifies(t: Tables, sender: Id, room: Option<string>)
    requires Consistent(t) && sender in t.connections && Given(room)
    ensures var s := JoinRoomStep(t, sender, room); var name := room.value;
      && s.after.connections == t.connections
      && name in s.after.rooms
      && s.after.rooms[name] == Members(t.rooms, name) + {sender}
      && (forall r :: r != name ==> (r in s.after.rooms <==> r in t.rooms))
      && (forall r :: r != name && r in t.rooms ==> s.after.rooms[r] == t.rooms[r])
      && s.emits == [Emit(Members(t.rooms, name), UserJoined(sender, name)),
                     Emit({sender}, JoinedRoom(name)),
                     Emit(t.connections.Keys, ActiveRooms(s.after.rooms))]
  {
    var name := room.value;
    assert Members(t.rooms, name) * t.connections.Keys == Members(t.rooms, name);
  }

  /** The joiner hears of its own join exactly when it was already in the room. */
  lemma JoinRoomSelfNotice(t: Tables, sender: Id, room: Option<string>)
    requires Given(room)
    ensures var s := JoinRoomStep(t, sender, room);
      sender in s.emits[0].to <==> IsMember(t.rooms, room.value, sender) && sender in t.connections
  {
  }

  /** A join without a room name gets one error on the sender's socket
    * and changes nothing. */
  lemma JoinRoomRefused(t: Tables, sender: Id, room: Option<string>)
    requires !Given(room)
    ensures JoinRoomStep(t, sender, room) == Step(t, [Emit({sender}, Error(RoomRequired))])
  {
  }

  lemma JoinRoomIdempotent(t: Tables, sender: Id, room: Option<string>)
    ensures var once := JoinRoomStep(t, sender, room).after;
      JoinRoomStep(once, sender, room).after == once
  {
  }

  lemma LeaveRoomRefused(t: Tables, sender: Id, room: Option<string>)
    requires !Given(room) || !IsMember(t.rooms, room.value, sender)
    ensures LeaveRoomStep(t, sender, room)
         == Step(t, [Emit({sender}, Error(if !Given(room) then RoomRequired else NotInRoom))])
  {
  }

  /** A leave removes the sender and keeps the room even when it is now
    * empty; the rest of the room hears of it; then everyone gets the table. */
  lemma LeaveRoomRemovesAndNotifies(t: Tables, sender: Id, room: Option<string>)
    requires Consistent(t) && Given(room) && IsMember(t.rooms, room.value, sender)
    ensures var s := LeaveRoomStep(t, sender, room); var name := room.value;
      && s.after.connections == t.connections
      && s.after.rooms.Keys == t.rooms.Keys
      && s.after.rooms[name] == t.rooms[name] - {sender}
      && (forall r :: r != name && r in t.rooms ==> s.after.rooms[r] == t.rooms[r])
      && s.emits == [Emit(t.rooms[name] - {sender}, UserLeft(sender, name)),
                     Emit({sender}, LeftRoom(name)),
                     Emit(t.connections.Keys, ActiveRooms(s.after.rooms))]
  {
    var name := room.value;
    assert (t.rooms[name] - {sender}) * t.connections.Keys == t.rooms[name] - {sender};
  }

  /** The last member leaving leaves an empty room behind. */
  lemma LeaveRoomKeepsEmptyRoom(t: Tables, sender: Id, name: RoomName)
    requires name != "" && name in t.rooms && t.rooms[name] == {sender}
    ensures var after := LeaveRoomStep(t, sender, Some(name)).after;
      name in after.rooms && after.rooms[name] == {}
  {
  }

  lemma LeaveRoomTwiceRefused(t: Tables, sender: Id, room: Option<string>)
    requires Consistent(t) && Given(room) && IsMember(t.rooms, room.value, sender)
    ensures var once := LeaveRoomStep(t, sender, room).after;
      LeaveRoomStep(once, sender, room) == Step(once, [Emit({sender}, Error(NotInRoom))])
  {
  }

  lemma SendRoomDelivers(t: Tables, sender: Id, room: Option<string>, payload: Option<Json>)
    requires Consistent(t)
    ensures var s := SendRoomStep(t, sender, room, payload);
      && s.after == t
      && if Given(room) && IsMember(t.rooms, room.value, sender)
         then s.emits == [Emit(t.rooms[room.value], RoomMessage(room.value, sender, PayloadOrEmpty(payload)))]
              && sender in s.emits[0].to
         else s.emits == [Emit({sender}, Error(if !Given(room) then RoomRequired else NotInRoom))]
  {
    if Given(room) && IsMember(t.rooms, room.value, sender) {
      assert t.rooms[room.value] * t.connections.Keys == t.rooms[room.value];
    }
  }

  lemma SendUserDelivers(t: Tables, sender: Id, to: Option<string>, payload: Option<Json>)
    ensures var s := SendUserStep(t, sender, to, payload);
      && s.after == t
      && if Given(to) && to.value in t.connections
         then s.emits == [Emit({to.value}, UserMessage(sender, PayloadOrEmpty(payload)))]
         else s.emits == [Emit({sender}, Error(if !Given(to) then RecipientMissing else RecipientUnknown))]
  {
  }

  /** get_info, an unknown type or unparseable text gets one error on the
    * sender's socket; valid JSON that is not an object ends the session. */
  lemma DispatchUnhandled(t: Tables, sender: Id, msg: Inbound)
    requires msg.GetInfo? || msg.Unknown? || msg.InvalidJson? || msg.NotAnObject?
    ensures DispatchStep(t, sender, msg)
         == if msg.NotAnObject? then Close
            else Continue(Step(t, [Emit({sender}, Error(
                   if msg.GetInfo? then UnknownType(Some("get_info"))
                   else if msg.Unknown? then UnknownType(msg.msgType)
                   else MalformedJson))]))
  {
  }

  /** Only connect and disconnect change the registry. */
  lemma DispatchKeepsRegistry(t: Tables, sender: Id, msg: Inbound)
    ensures Outcome(t, DispatchStep(t, sender, msg)).after.connections == t.connections
  {
  }

  lemma DispatchPreservesConsistent(t: Tables, sender: Id, msg: Inbound)
    requires Consistent(t) && sender in t.connections
    ensures Consistent(Outcome(t, DispatchStep(t, sender, msg)).after)
  {
  }

  /** The table broadcast after a change is the table the change produced. */
  lemma TableBroadcastCurrent(t: Tables, sender: Id, msg: Inbound)
    requires msg.JoinRoom? || msg.LeaveRoom?
    ensures var s := Outcome(t, DispatchStep(t, sender, msg));
      |s.emits| == 3
      <==> (msg.JoinRoom? && Given(msg.room))
           || (msg.LeaveRoom? && Given(msg.room) && IsMember(t.rooms, msg.room.value, sender))
    ensures var s := Outcome(t, DispatchStep(t, sender, msg));
      |s.emits| == 3 ==> s.emits[2] == Emit(s.after.connections.Keys, ActiveRooms(s.after.rooms))
  {
  }

  lemma ConnectPreservesConsistent(t: Tables, id: Id, socket: Handle)
    requires Consistent(t)
    ensures var s := ConnectStep(t, id, socket);
      && Consistent(s.after) && s.after.rooms == t.rooms
      && s.after.connections.Keys == t.connections.Keys + {id}
      && s.emits == [Emit({id}, ConnectionId(id)), Emit(t.connections.Keys + {id}, ActiveRooms(t.rooms))]
  {
  }

  /** After a disconnect `id` is in no room, and every room is still there
    * with its other members. */
  lemma CleanupRemoves(t: Tables, id: Id)
    requires Consistent(t)
    ensures var c := Cleaned(t, id);
      && Consistent(c)
      && id !in c.connections
      && c.rooms.Keys == t.rooms.Keys
      && (forall r :: r in c.rooms ==> c.rooms[r] == t.rooms[r] - {id})
  {
  }

  /** Whatever the order of the rooms, a disconnect sends one `user_left`
    * to each remaining member of each room `id` was in, then the table to
    * every remaining connection, and nothing else. */
  lemma CleanupNotifies(t: Tables, id: Id, order: seq<RoomName>, x: Id, m: Msg)
    requires Consistent(t) && Enumerates(order, t.rooms.Keys)
    ensures Received(CleanupStep(t, id, order).emits, x, m)
         == if m.UserLeft? && m.user == id && IsMember(t.rooms, m.room, id) && x in t.rooms[m.room] - {id}
            then 1
            else if m == ActiveRooms(PurgeKeeping(t.rooms, id)) && x in t.connections && x != id
            then 1 else 0
  {
    var c := Cleaned(t, id);
    LeftNoticesOncePerRoom(t.rooms, c.connections, id, order, x, m);
    ReceivedAppend(LeftNotices(t.rooms, c.connections, id, order), [RoomsNotice(c)], x, m);
    assert [RoomsNotice(c)][1..] == [];
  }

  lemma DispatchMembership(t: Tables, sender: Id, msg: Inbound, name: RoomName)
    ensures var after := Outcome(t, DispatchStep(t, sender, msg)).after;
      IsMember(after.rooms, name, sender)
      <==> if msg.JoinRoom? && Given(msg.room) && msg.room.value == name then true
           else if msg.LeaveRoom? && Given(msg.room) && msg.room.value == name then false
           else IsMember(t.rooms, name, sender)
  {
  }

  /** One message changes no one's membership but the sender's. */
  lemma DispatchOthersUnaffected(t: Tables, sender: Id, msg: Inbound, name: RoomName, x: Id)
    requires x != sender
    ensures IsMember(Outcome(t, DispatchStep(t, sender, msg)).after.rooms, name, x) <==> IsMember(t.rooms, name, x)
  {
  }

  /** A connection is in a room exactly when its last join_room/leave_room
    * for that room was a join (or, with neither, when it already was). */
  lemma {:induction false} MembershipFollowsLastTouch(t: Tables, sender: Id, msgs: seq<Inbound>, name: RoomName)
    ensures IsMember(Session(t, sender, msgs).after.rooms, name, sender)
        <==> LastTouch(msgs, name) == Some(true)
             || (LastTouch(msgs, name) == None && IsMember(t.rooms, name, sender))
    decreases |msgs|
  {
    if msgs != [] {
      var init := msgs[..|msgs| - 1];
      MembershipFollowsLastTouch(t, sender, init, name);
      DispatchMembership(Session(t, sender, init).after, sender, msgs[|msgs| - 1], name);
    }
  }

  /** A session keeps the registry and every member registered, deletes no
    * room, and changes no one's membership but the sender's. */
  lemma {:induction false} SessionKeepsOthers(t: Tables, sender: Id, msgs: seq<Inbound>)
    requires Consistent(t) && sender in t.connections
    ensures var after := Session(t, sender, msgs).after;
      && Consistent(after) && after.connections == t.connections
      && after.rooms.Keys >= t.rooms.Keys
      && forall name, x :: x != sender ==> (IsMember(after.rooms, name, x) <==> IsMember(t.rooms, name, x))
    decreases |msgs|
  {
    if msgs != [] {
      var init := msgs[..|msgs| - 1];
      var before := Session(t, sender, init).after;
      SessionKeepsOthers(t, sender, init);
      DispatchPreservesConsistent(before, sender, msgs[|msgs| - 1]);
      RoomsNeverVanish(before, sender, msgs[|msgs| - 1]);
      forall name, x | x != sender
        ensures IsMember(Session(t, sender, msgs).after.rooms, name, x) <==> IsMember(t.rooms, name, x)
      {
        DispatchOthersUnaffected(before, sender, msgs[|msgs| - 1], name, x);
      }
    }
  }

  /** Over a whole connection, `id` is in a room at the end of its session
    * exactly when its last join_room/leave_room for that room was a join. */
  lemma HandlerMembership(t: Tables, id: Id, socket: Handle, msgs: seq<Inbound>, name: RoomName)
    requires Consistent(t) && id !in t.connections
    ensures var s := Session(ConnectStep(t, id, socket).after, id, msgs[..SessionLength(msgs)]);
      IsMember(s.after.rooms, name, id) <==> LastTouch(msgs[..SessionLength(msgs)], name) == Some(true)
  {
    MembershipFollowsLastTouch(ConnectStep(t, id, socket).after, id, msgs[..SessionLength(msgs)], name);
  }

  /** A whole connection leaves the registry as it found it, `id` in no
    * room, every room still there, everyone else's memberships as they
    * were; its first delivery is the connection id and its last the room
    * table, sent to every remaining connection. */
  lemma HandlerLeavesNoTrace(t: Tables, id: Id, socket: Handle, msgs: seq<Inbound>, order: seq<RoomName>)
    requires Consistent(t) && id !in t.connections
    ensures var h := HandlerStep(t, id, socket, msgs, order);
      && Consistent(h.after)
      && h.after.connections == t.connections
      && h.after.rooms.Keys >= t.rooms.Keys
      && (forall r :: r in h.after.rooms ==> id !in h.after.rooms[r])
      && (forall name, x :: x != id ==> (IsMember(h.after.rooms, name, x) <==> IsMember(t.rooms, name, x)))
      && h.emits[0] == Emit({id}, ConnectionId(id))
      && h.emits[|h.emits| - 1] == Emit(t.connections.Keys, ActiveRooms(h.after.rooms))
  {
    var c := ConnectStep(t, id, socket);
    ConnectPreservesConsistent(t, id, socket);
    SessionKeepsOthers(c.after, id, msgs[..SessionLength(msgs)]);
    var s := Session(c.after, id, msgs[..SessionLength(msgs)]);
    CleanupRemoves(s.after, id);
    assert s.after.connections - {id} == t.connections;
  }

  // ---------------------------------------------------------------------
  // The module state

  /** The two module-level dictionaries `connections` and `rooms`. */
  class Relay {
    var connections: map<Id, Handle>
    var rooms: Rooms
    /** Every delivery made so far, in order. */
    var outbox: Outbox
    /** Every id ever registered: an id is never handed out twice. */
    ghost var issued: set<Id>

    function Snapshot(): Tables
      reads this
    {
      Tables(connections, rooms)
    }

    ghost predicate Valid()
      reads this
    {
      Consistent(Snapshot()) && connections.Keys <= issued
    }

    /** The tables are now `step.after` and the sends since the old state
      * are `step.emits`. */
    twostate predicate Performed(step: Step)
      reads this
    {
      Snapshot() == step.after && Sent(old(outbox), outbox, step.emits) && issued == old(issued)
    }

    /** Both dictionaries start empty. */
    constructor ()
      ensures Valid() && connections == map[] && rooms == map[] && outbox == [] && issued == {}
    {
      connections, rooms, outbox := map[], map[], [];
      issued := {};
    }

    /** `ws.send_json` on the socket of `id`. */
    method SendJson(id: Id, msg: Msg)
      modifies this`outbox
      ensures outbox == old(outbox) + [(id, msg)]
    {
      outbox := outbox + [(id, msg)];
    }

    /** `send_to`, which drops the message if `id` is not registered. */
    method SendTo(id: Id, msg: Msg)
      modifies this`outbox
      ensures outbox == old(outbox) + if id in connections then [(id, msg)] else []
    {
      if id in connections {
        SendJson(id, msg);
      }
    }

    /** `broadcast_rooms`, the table taken once, then sent to
      * every registered connection. */
    method BroadcastRooms()
      modifies this`outbox
      ensures Sent(old(outbox), outbox, [RoomsNotice(Snapshot())])
    {
      SendEachSocket(connections.Keys, ActiveRooms(rooms));
      SentFanOut(old(outbox), outbox, RoomsNotice(Snapshot()));
    }

    /** The loop of broadcast_rooms: a send_json on the socket of each of `targets`. */
    method SendEachSocket(targets: set<Id>, msg: Msg)
      modifies this`outbox
      ensures old(outbox) <= outbox
      ensures multiset(outbox[|old(outbox)|..]) == Deliveries(targets, msg)
    {
      var pending := targets;
      ghost var done: set<Id> := {};
      while pending != {}
        invariant pending + done == targets && pending !! done
        invariant old(outbox) <= outbox
        invariant multiset(outbox[|old(outbox)|..]) == Deliveries(done, msg)
        decreases pending
      {
        var member :| member in pending;
        DeliveriesStep(old(outbox), outbox, member, msg, done);
        SendJson(member, msg);
        pending := pending - {member};
        done := done + {member};
      }
    }

    /** `broadcast_to_room`, one send_to per member of a copy of the room. */
    method BroadcastToRoom(name: RoomName, msg: Msg)
      modifies this`outbox
      ensures Sent(old(outbox), outbox, [Broadcast(Snapshot(), name, msg)])
    {
      if name !in rooms {
        SentNothing(outbox, msg);
        return;
      }
      SendEach(rooms[name], msg);
      SentFanOut(old(outbox), outbox, Broadcast(Snapshot(), name, msg));
    }

    /** A send_to to each of `members`, in any order. */
    method SendEach(members: set<Id>, msg: Msg)
      modifies this`outbox
      ensures old(outbox) <= outbox
      ensures multiset(outbox[|old(outbox)|..]) == Deliveries(members * connections.Keys, msg)
    {
      var pending := members;
      ghost var done: set<Id> := {};
      while pending != {}
        invariant pending + done == members && pending !! done
        invariant old(outbox) <= outbox
        invariant multiset(outbox[|old(outbox)|..]) == Deliveries(done * connections.Keys, msg)
        decreases pending
      {
        var member :| member in pending;
        DeliveriesGrow(old(outbox), outbox, member, msg, done, connections.Keys);
        SendTo(member, msg);
        pending := pending - {member};
        done := done + {member};
      }
    }

    /** The start of `websocket_handler`: register a fresh id, send it, then the table to everyone. */
    method Connect(id: Id, socket: Handle)
      requires Valid() && id !in issued
      modifies this
      ensures Valid() && issued == old(issued) + {id}
      ensures Snapshot() == ConnectStep(old(Snapshot()), id, socket).after
      ensures Sent(old(outbox), outbox, ConnectStep(old(Snapshot()), id, socket).emits)
    {
      connections := connections[id := socket];
      issued := issued + {id};
      SentOne(outbox, id, ConnectionId(id));
      SendJson(id, ConnectionId(id));
      ghost var o1 := outbox;
      BroadcastRooms();
      SentChain(old(outbox), o1, outbox, [Direct(id, ConnectionId(id))], [RoomsNotice(Snapshot())]);
    }

    method HandleJoinRoom(sender: Id, room: Option<string>)
      modifies this`rooms, this`outbox
      ensures Performed(JoinRoomStep(old(Snapshot()), sender, room))
    {
      if !Given(room) {
        SentOne(outbox, sender, Error(RoomRequired));
        SendJson(sender, Error(RoomRequired));
        return;
      }
      var name := room.value;
      ghost var step := JoinRoomStep(Snapshot(), sender, room);
      ghost var notice := Broadcast(Snapshot(), name, UserJoined(sender, name));
      if name !in rooms {
        rooms := rooms[name := {}];
      }
      assert Broadcast(Snapshot(), name, UserJoined(sender, name)) == notice;
      SendEach(rooms[name], UserJoined(sender, name));
      SentFanOut(old(outbox), outbox, notice);
      rooms := rooms[name := rooms[name] + {sender}];
      assert Snapshot() == step.after;
      assert step.emits == [notice, Direct(sender, JoinedRoom(name)), RoomsNotice(Snapshot())];
      ghost var o1 := outbox;
      SentOne(outbox, sender, JoinedRoom(name));
      SendJson(sender, JoinedRoom(name));
      ghost var o2 := outbox;
      BroadcastRooms();
      SentThree(old(outbox), o1, o2, outbox, notice, Direct(sender, JoinedRoom(name)), RoomsNotice(Snapshot()));
    }

    method HandleLeaveRoom(sender: Id, room: Option<string>)
      modifies this`rooms, this`outbox
      ensures Performed(LeaveRoomStep(old(Snapshot()), sender, room))
    {
      if !Given(room) {
        SentOne(outbox, sender, Error(RoomRequired));
        SendJson(sender, Error(RoomRequired));
        return;
      }
      var name := room.value;
      if name !in rooms || sender !in rooms[name] {
        SentOne(outbox, sender, Error(NotInRoom));
        SendJson(sender, Error(NotInRoom));
        return;
      }
      ghost var step := LeaveRoomStep(Snapshot(), sender, room);
      rooms := rooms[name := rooms[name] - {sender}];
      assert Snapshot() == step.after;
      ghost var notice := Broadcast(Snapshot(), name, UserLeft(sender, name));
      assert step.emits == [notice, Direct(sender, LeftRoom(name)), RoomsNotice(Snapshot())];
      BroadcastToRoom(name, UserLeft(sender, name));
      ghost var o1 := outbox;
      SentOne(outbox, sender, LeftRoom(name));
      SendJson(sender, LeftRoom(name));
      ghost var o2 := outbox;
      BroadcastRooms();
      SentThree(old(outbox), o1, o2, outbox, notice, Direct(sender, LeftRoom(name)), RoomsNotice(Snapshot()));
    }

    method HandleSendRoom(sender: Id, room: Option<string>, payload: Option<Json>)
      modifies this`rooms, this`outbox
      ensures Performed(SendRoomStep(old(Snapshot()), sender, room, payload))
    {
      if !Given(room) {
        SentOne(outbox, sender, Error(RoomRequired));
        SendJson(sender, Error(RoomRequired));
        return;
      }
      var name := room.value;
      if name !in rooms || sender !in rooms[name] {
        SentOne(outbox, sender, Error(NotInRoom));
        SendJson(sender, Error(NotInRoom));
        return;
      }
      BroadcastToRoom(name, RoomMessage(name, sender, PayloadOrEmpty(payload)));
    }

    method HandleSendUser(sender: Id, to: Option<string>, payload: Option<Json>)
      modifies this`rooms, this`outbox
      ensures Performed(SendUserStep(old(Snapshot()), sender, to, payload))
    {
      if !Given(to) {
        SentOne(outbox, sender, Error(RecipientMissing));
        SendJson(sender, Error(RecipientMissing));
        return;
      }
      if to.value !in connections {
        SentOne(outbox, sender, Error(RecipientUnknown));
        SendJson(sender, Error(RecipientUnknown));
        return;
      }
      SentUnicast(outbox, connections, to.value, UserMessage(sender, PayloadOrEmpty(payload)));
      SendTo(to.value, UserMessage(sender, PayloadOrEmpty(payload)));
    }

    /** The body of the receive loop of `websocket_handler`: handle one
      * inbound text frame; false when the message raised and the session
      * is over. */
    method Receive(sender: Id, msg: Inbound) returns (open: bool)
      requires Valid() && sender in connections
      modifies this`rooms, this`outbox
      ensures Valid()
      ensures open <==> !msg.NotAnObject?
      ensures open == DispatchStep(old(Snapshot()), sender, msg).Continue?
      ensures Performed(Outcome(old(Snapshot()), DispatchStep(old(Snapshot()), sender, msg)))
    {
      DispatchPreservesConsistent(Snapshot(), sender, msg);
      open := true;
      match msg
      case JoinRoom(room) => HandleJoinRoom(sender, room);
      case LeaveRoom(room) => HandleLeaveRoom(sender, room);
      case SendRoom(room, payload) => HandleSendRoom(sender, room, payload);
      case SendUser(to, payload) => HandleSendUser(sender, to, payload);
      case GetInfo(_, _) =>
        SentOne(outbox, sender, Error(UnknownType(Some("get_info"))));
        SendJson(sender, Error(UnknownType(Some("get_info"))));
      case Unknown(msgType) =>
        SentOne(outbox, sender, Error(UnknownType(msgType)));
        SendJson(sender, Error(UnknownType(msgType)));
      case InvalidJson =>
        SentOne(outbox, sender, Error(MalformedJson));
        SendJson(sender, Error(MalformedJson));
      case NotAnObject =>
        open := false;
        SentEmpty(outbox);
    }

    /** The `finally` block of `websocket_handler`: unregister `id`, leave every room it is in telling the
      * rest of each room, then send the table to everyone left. */
    method Cleanup(id: Id)
      requires Valid()
      modifies this`connections, this`rooms, this`outbox
      ensures Valid() && issued == old(issued)
      ensures Snapshot() == Cleaned(old(Snapshot()), id)
      ensures exists order :: Enumerates(order, old(rooms).Keys)
                && Sent(old(outbox), outbox, CleanupStep(old(Snapshot()), id, order).emits)
      ensures old(outbox) <= outbox
    {
      ghost var t0 := Snapshot();
      CleanupRemoves(t0, id);
      connections := connections - {id};
      var order := LeaveEveryRoom(id);
      ghost var o1 := outbox;
      BroadcastRooms();
      SentCleanup(t0, id, order, old(outbox), o1, outbox);
    }

    /** The loop over `rooms.items()`; `order` is the order in which the
      * rooms were visited. */
    method LeaveEveryRoom(id: Id) returns (ghost order: seq<RoomName>)
      modifies this`rooms, this`outbox
      ensures Enumerates(order, old(rooms).Keys)
      ensures rooms == PurgeKeeping(old(rooms), id)
      ensures Sent(old(outbox), outbox, LeftNotices(old(rooms), connections, id, order))
    {
      ghost var rooms0 := rooms;
      order := [];
      ghost var visited: set<RoomName> := {};
      var pending := rooms.Keys;
      SentEmpty(outbox);
      while pending != {}
        invariant pending + visited == rooms0.Keys && pending !! visited
        invariant Partway(rooms0, id, visited, order, old(outbox))
        decreases pending
      {
        var r :| r in pending;
        order := VisitRoom(rooms0, id, r, visited, order, old(outbox));
        visited := visited + {r};
        pending := pending - {r};
      }
      PurgedInAll(rooms0, id);
    }

    /** The state of that loop once the rooms in `visited` (listed in
      * `order`) have been handled. */
    ghost predicate Partway(rooms0: Rooms, id: Id, visited: set<RoomName>, order: seq<RoomName>, start: Outbox)
      reads this
    {
      && Distinct(order) && (forall r :: r in order <==> r in visited)
      && rooms == PurgedIn(rooms0, id, visited)
      && Sent(start, outbox, LeftNotices(rooms0, connections, id, order))
    }

    /** One iteration of that loop, for room `r`. */
    method VisitRoom(ghost rooms0: Rooms, id: Id, r: RoomName, ghost visited: set<RoomName>,
                     ghost order: seq<RoomName>, ghost start: Outbox)
      returns (ghost order': seq<RoomName>)
      requires r in rooms0 && r !in visited
      requires Partway(rooms0, id, visited, order, start)
      modifies this`rooms, this`outbox
      ensures Partway(rooms0, id, visited + {r}, order', start)
    {
      ghost var o1 := outbox;
      PurgedInStep(rooms0, id, visited, r);
      LeaveOne(rooms0, id, r);
      SentNoticesSnoc(start, o1, outbox, rooms0, connections, id, order, r);
      DistinctSnoc(order, r);
      order' := order + [r];
    }

    /** The body of the loop over `rooms.items()` for room `r`, which still
      * holds what it held in `rooms0`: if `id` is in it, remove it and tell
      * the rest of the room. */
    method LeaveOne(ghost rooms0: Rooms, id: Id, r: RoomName)
      requires r in rooms0 && r in rooms && rooms[r] == rooms0[r]
      modifies this`rooms, this`outbox
      ensures rooms == old(rooms)[r := rooms0[r] - {id}]
      ensures Sent(old(outbox), outbox, LeftNotice(rooms0, connections, id, r))
    {
      if id in rooms[r] {
        rooms := rooms[r := rooms[r] - {id}];
        SendEach(rooms[r], UserLeft(id, r));
        SentFanOut(old(outbox), outbox, Emit((rooms0[r] - {id}) * connections.Keys, UserLeft(id, r)));
      } else {
        assert rooms[r] - {id} == rooms[r];
        SentEmpty(outbox);
      }
    }

    /** `websocket_handler`: one whole session. Whatever the messages, and
      * whether the session ends at the end of the input or because a
      * message raised, the connection is cleaned up exactly once at the end. */
    method Handler(id: Id, socket: Handle, inbox: seq<Inbound>)
      requires Valid() && id !in issued
      modifies this
      ensures Valid() && issued == old(issued) + {id}
      ensures exists order :: Enumerates(order, Session(ConnectStep(old(Snapshot()), id, socket).after,
                                                         id, inbox[..SessionLength(inbox)]).after.rooms.Keys)
                && Snapshot() == HandlerStep(old(Snapshot()), id, socket, inbox, order).after
                && Sent(old(outbox), outbox, HandlerStep(old(Snapshot()), id, socket, inbox, order).emits)
    {
      ghost var t0 := Snapshot();
      ghost var c := ConnectStep(t0, id, socket);
      Connect(id, socket);
      ghost var o1 := outbox;
      Serve(id, inbox);
      ghost var s := Session(c.after, id, inbox[..SessionLength(inbox)]);
      ghost var o2 := outbox;
      Cleanup(id);
      ghost var order :| Enumerates(order, s.after.rooms.Keys)
                         && Sent(o2, outbox, CleanupStep(s.after, id, order).emits);
      SentChain(old(outbox), o1, o2, c.emits, s.emits);
      SentChain(old(outbox), o2, outbox, c.emits + s.emits, CleanupStep(s.after, id, order).emits);
    }

    /** The session loop: receive until the input ends or a message raises. */
    method Serve(id: Id, inbox: seq<Inbound>)
      requires Valid() && id in connections
      modifies this`rooms, this`outbox
      ensures Valid()
      ensures Performed(Session(old(Snapshot()), id, inbox[..SessionLength(inbox)]))
    {
      var i := 0;
      var open := true;
      SentEmpty(outbox);
      while i < |inbox| && open
        invariant 0 <= i <= |inbox|
        invariant Valid() && id in connections
        invariant open ==> SessionLength(inbox) == i + SessionLength(inbox[i..])
        invariant !open ==> SessionLength(inbox) == i
        invariant Snapshot() == Session(old(Snapshot()), id, inbox[..i]).after
        invariant Sent(old(outbox), outbox, Session(old(Snapshot()), id, inbox[..i]).emits)
      {
        ghost var o1 := outbox;
        open := Receive(id, inbox[i]);
        assert inbox[..i + 1][..i] == inbox[..i];
        assert inbox[i..][1..] == inbox[i + 1..];
        SentSessionStep(old(Snapshot()), id, inbox, i, old(outbox), o1, outbox);
        i := i + 1;
      }
      assert open ==> inbox[i..] == [];
    }
  }

  /** No handler and no disconnect ever deletes a room. */
  lemma RoomsNeverVanish(t: Tables, sender: Id, msg: Inbound)
    ensures Outcome(t, DispatchStep(t, sender, msg)).after.rooms.Keys >= t.rooms.Keys
    ensures forall id :: Cleaned(t, id).rooms.Keys == t.rooms.Keys
  {
  }
}
