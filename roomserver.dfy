/**
 * The relay of app/server.py: class WebSocketRoomServer. Errors raised
 * inside a handler go through `send_error_to` (dropped if the sender is not
 * registered); a user joining is announced to every member including
 * itself; rooms left empty are deleted; `get_info` is supported.
 *
 * Each handler is first described as a function from the tables before to
 * a Step (tables after, sends in order); the lemmas state what the relay
 * promises about these Steps; the class's methods change its fields in
 * place and are proved to perform exactly the Step of their handler.
 */
module RoomServer {
  import opened Protocol
  import opened Delivery
  import opened RoomTable

  /** The invariants this relay keeps: no dangling membership, no empty room. */
  ghost predicate Invariant(t: Tables)
  {
    Consistent(t) && forall r :: r in t.rooms ==> t.rooms[r] != {}
  }

  /** `send_error_to`: one error for the sender, if it is registered. */
  function Reject(t: Tables, sender: Id, kind: ErrorKind): Step
  {
    Step(t, [Unicast(t.connections, sender, Error(kind))])
  }

  /** Registration of a new connection and its `connection_id` message. */
  function ConnectStep(t: Tables, id: Id, socket: Handle): Step
  {
    Step(t.(connections := t.connections[id := socket]), [Direct(id, ConnectionId(id))])
  }

  function JoinRoomStep(t: Tables, sender: Id, room: Option<string>): Step
  {
    if !Given(room) then Reject(t, sender, RoomRequired)
    else
      var name := room.value;
      var t' := t.(rooms := Join(t.rooms, name, sender));
      Step(t', [Broadcast(t', name, UserJoined(sender, name)),
                Unicast(t'.connections, sender, JoinedRoom(name))])
  }

  function LeaveRoomStep(t: Tables, sender: Id, room: Option<string>): Step
  {
    if !Given(room) then Reject(t, sender, RoomRequired)
    else if !IsMember(t.rooms, room.value, sender) then Reject(t, sender, NotInRoom)
    else
      var name := room.value;
      var rest := t.rooms[name] - {sender};
      var removed := t.(rooms := t.rooms[name := rest]);
      var deleted := if rest == {} then removed.(rooms := removed.rooms - {name}) else removed;
      Step(deleted, [Broadcast(removed, name, UserLeft(sender, name)),
                     Unicast(removed.connections, sender, LeftRoom(name))])
  }

  function SendRoomStep(t: Tables, sender: Id, room: Option<string>, payload: Option<Json>): Step
  {
    if !Given(room) then Reject(t, sender, RoomRequired)
    else if !IsMember(t.rooms, room.value, sender) then Reject(t, sender, NotInRoom)
    else Step(t, [Broadcast(t, room.value, RoomMessage(room.value, sender, PayloadOrEmpty(payload)))])
  }

  function SendUserStep(t: Tables, sender: Id, to: Option<string>, payload: Option<Json>): Step
  {
    if !Given(to) then Reject(t, sender, RecipientMissing)
    else if to.value !in t.connections then Reject(t, sender, RecipientUnknown)
    else Step(t, [Unicast(t.connections, to.value, UserMessage(sender, PayloadOrEmpty(payload)))])
  }

  function GetInfoStep(t: Tables, sender: Id, room: Option<string>, info: Option<string>): Step
  {
    if !Given(room) then Reject(t, sender, RoomRequired)
    else if !IsMember(t.rooms, room.value, sender) then Reject(t, sender, NotInRoom)
    else if !Given(info) then Reject(t, sender, InfoRequired)
    else if info.value == "users" then
      Step(t, [Unicast(t.connections, sender, CurrentUsers(room.value, t.rooms[room.value]))])
    else Reject(t, sender, UnknownInfo(info.value))
  }

  /** The body of the session loop: dispatch on the message's type. The two
    * dispatcher errors are written straight to the sender's socket. */
  function DispatchStep(t: Tables, sender: Id, msg: Inbound): Dispatched
  {
    match msg
    case JoinRoom(room) => Continue(JoinRoomStep(t, sender, room))
    case LeaveRoom(room) => Continue(LeaveRoomStep(t, sender, room))
    case SendRoom(room, payload) => Continue(SendRoomStep(t, sender, room, payload))
    case SendUser(to, payload) => Continue(SendUserStep(t, sender, to, payload))
    case GetInfo(room, info) => Continue(GetInfoStep(t, sender, room, info))
    case Unknown(msgType) => Continue(Step(t, [Direct(sender, Error(UnknownType(msgType)))]))
    case InvalidJson => Continue(Step(t, [Direct(sender, Error(MalformedJson))]))
    case NotAnObject => Close
  }

  /** The tables after `cleanup_connection(id)`. */
  function Cleaned(t: Tables, id: Id): Tables
  {
    Tables(t.connections - {id}, PurgeDeleting(t.rooms, id))
  }

  /** `cleanup_connection(id)`, visiting the rooms in `order`. */
  function CleanupStep(t: Tables, id: Id, order: seq<RoomName>): Step
  {
    Step(Cleaned(t, id), LeftNotices(t.rooms, Cleaned(t, id).connections, id, order))
  }

  /** The tables after `sender`'s messages are dispatched in turn, and
    * everything the dispatches sent, in order. A message that ends the
    * session changes nothing and sends nothing. */
  function Session(t: Tables, sender: Id, msgs: seq<Inbound>): Step
    decreases |msgs|
  {
    if msgs == [] then Step(t, [])
    else
      var before := Session(t, sender, msgs[..|msgs| - 1]);
      var last := Outcome(before.after, DispatchStep(before.after, sender, msgs[|msgs| - 1]));
      Step(last.after, before.emits + last.emits)
  }

  /** Sends that realize a session so far, followed by those of its next
    * message, realize the longer session. */
  lemma SentSessionStep(t: Tables, sender: Id, msgs: seq<Inbound>, i: nat, o0: Outbox, o1: Outbox, o2: Outbox)
    requires i < |msgs|
    requires Sent(o0, o1, Session(t, sender, msgs[..i]).emits)
    requires var before := Session(t, sender, msgs[..i]).after;
      Sent(o1, o2, Outcome(before, DispatchStep(before, sender, msgs[i])).emits)
    ensures Sent(o0, o2, Session(t, sender, msgs[..i + 1]).emits)
  {
    assert msgs[..i + 1][..i] == msgs[..i];
    var before := Session(t, sender, msgs[..i]).after;
    SentChain(o0, o1, o2, Session(t, sender, msgs[..i]).emits, Outcome(before, DispatchStep(before, sender, msgs[i])).emits);
  }

  /** `handler` for a fresh connection `id` whose socket yields `msgs`:
    * register it, dispatch the messages the session reads, then clean up
    * visiting the rooms in `order`. */
  function HandlerStep(t: Tables, id: Id, socket: Handle, msgs: seq<Inbound>, order: seq<RoomName>): Step
  {
    var c := ConnectStep(t, id, socket);
    var s := Session(c.after, id, msgs[..SessionLength(msgs)]);
    var k := CleanupStep(s.after, id, order);
    Step(k.after, c.emits + s.emits + k.emits)
  }

  // ---------------------------------------------------------------------
  // What the handlers promise

  lemma JoinRoomAddsAndNotifies(t: Tables, sender: Id, room: Option<string>)
    requires Consistent(t) && sender in t.connections && Given(room)
    ensures var s := JoinRoomStep(t, sender, room); var name := room.value;
      && s.after.connections == t.connections
      && name in s.after.rooms
      && s.after.rooms[name] == Members(t.rooms, name) + {sender}
      && (forall r :: r != name ==> (r in s.after.rooms <==> r in t.rooms))
      && (forall r :: r != name && r in t.rooms ==> s.after.rooms[r] == t.rooms[r])
      && s.emits == [Emit(s.after.rooms[name], UserJoined(sender, name)), Emit({sender}, JoinedRoom(name))]
  {
    var name := room.value;
    assert (Members(t.rooms, name) + {sender}) * t.connections.Keys == Members(t.rooms, name) + {sender};
  }

  /** A join without a room name gets one error and changes nothing. */
  lemma JoinRoomRefused(t: Tables, sender: Id, room: Option<string>)
    requires sender in t.connections && !Given(room)
    ensures JoinRoomStep(t, sender, room) == Step(t, [Emit({sender}, Error(RoomRequired))])
  {
  }

  lemma JoinRoomIdempotent(t: Tables, sender: Id, room: Option<string>)
    ensures var once := JoinRoomStep(t, sender, room).after;
      JoinRoomStep(once, sender, room).after == once
  {
  }

  lemma LeaveRoomRefused(t: Tables, sender: Id, room: Option<string>)
    requires sender in t.connections
    requires !Given(room) || !IsMember(t.rooms, room.value, sender)
    ensures LeaveRoomStep(t, sender, room)
         == Step(t, [Emit({sender}, Error(if !Given(room) then RoomRequired else NotInRoom))])
  {
  }

  lemma LeaveRoomRemovesAndNotifies(t: Tables, sender: Id, room: Option<string>)
    requires Consistent(t) && Given(room) && IsMember(t.rooms, room.value, sender)
    ensures var s := LeaveRoomStep(t, sender, room); var name := room.value;
      && s.after.connections == t.connections
      && !IsMember(s.after.rooms, name, sender)
      && (name in s.after.rooms <==> t.rooms[name] != {sender})
      && (name in s.after.rooms ==> s.after.rooms[name] == t.rooms[name] - {sender})
      && (forall r :: r != name ==> (r in s.after.rooms <==> r in t.rooms))
      && (forall r :: r != name && r in t.rooms ==> s.after.rooms[r] == t.rooms[r])
      && s.emits == [Emit(t.rooms[name] - {sender}, UserLeft(sender, name)), Emit({sender}, LeftRoom(name))]
  {
    var name := room.value;
    assert t.rooms[name] - {sender} == {} <==> t.rooms[name] == {sender};
    assert (t.rooms[name] - {sender}) * t.connections.Keys == t.rooms[name] - {sender};
  }

  /** Leaving twice: the second leave is refused and changes nothing. */
  lemma LeaveRoomTwiceRefused(t: Tables, sender: Id, room: Option<string>)
    requires Consistent(t) && Given(room) && IsMember(t.rooms, room.value, sender)
    ensures var once := LeaveRoomStep(t, sender, room).after;
      LeaveRoomStep(once, sender, room) == Step(once, [Emit({sender}, Error(NotInRoom))])
  {
  }

  lemma SendRoomDelivers(t: Tables, sender: Id, room: Option<string>, payload: Option<Json>)
    requires Consistent(t) && sender in t.connections
    ensures var s := SendRoomStep(t, sender, room, payload);
      && s.after == t
      && if Given(room) && IsMember(t.rooms, room.value, sender)
         then s.emits == [Emit(t.rooms[room.value], RoomMessage(room.value, sender, PayloadOrEmpty(payload)))]
              && sender in s.emits[0].to
         else s.emits == [Emit({sender}, Error(if !Given(room) then RoomRequired else NotInRoom))]
  {
    if Given(room) && IsMember(t.rooms, room.value, sender) {
      assert t.rooms[room.value] * t.connections.Keys == t.rooms[room.value];
    }
  }

  lemma SendUserDelivers(t: Tables, sender: Id, to: Option<string>, payload: Option<Json>)
    requires sender in t.connections
    ensures var s := SendUserStep(t, sender, to, payload);
      && s.after == t
      && if Given(to) && to.value in t.connections
         then s.emits == [Emit({to.value}, UserMessage(sender, PayloadOrEmpty(payload)))]
         else s.emits == [Emit({sender}, Error(if !Given(to) then RecipientMissing else RecipientUnknown))]
  {
  }

  /** get_info answers with exactly one message to the sender and changes
    * nothing; only a member asking for "users" gets the member set. */
  lemma GetInfoAnswers(t: Tables, sender: Id, room: Option<string>, info: Option<string>)
    requires sender in t.connections
    ensures var s := GetInfoStep(t, sender, room, info);
      && s.after == t
      && |s.emits| == 1 && s.emits[0].to == {sender}
      && (s.emits[0].msg.CurrentUsers?
          <==> Given(room) && IsMember(t.rooms, room.value, sender) && Given(info) && info.value == "users")
      && (s.emits[0].msg.CurrentUsers? ==> s.emits[0].msg == CurrentUsers(room.value, t.rooms[room.value]))
      && (!Given(room) ==> s.emits[0].msg == Error(RoomRequired))
      && (Given(room) && !IsMember(t.rooms, room.value, sender) ==> s.emits[0].msg == Error(NotInRoom))
      && (Given(room) && IsMember(t.rooms, room.value, sender) && !Given(info)
          ==> s.emits[0].msg == Error(InfoRequired))
      && (Given(room) && IsMember(t.rooms, room.value, sender) && Given(info) && info.value != "users"
          ==> s.emits[0].msg == Error(UnknownInfo(info.value)))
  {
  }

  /** An unknown type or unparseable text gets one error on the sender's
    * socket; valid JSON that is not an object ends the session. */
  lemma DispatchUnhandled(t: Tables, sender: Id, msg: Inbound)
    requires msg.Unknown? || msg.InvalidJson? || msg.NotAnObject?
    ensures DispatchStep(t, sender, msg)
         == if msg.NotAnObject? then Close
            else Continue(Step(t, [Emit({sender}, Error(if msg.Unknown? then UnknownType(msg.msgType) else MalformedJson))]))
  {
  }

  /** Only connect and cleanup change the registry. */
  lemma DispatchKeepsRegistry(t: Tables, sender: Id, msg: Inbound)
    ensures Outcome(t, DispatchStep(t, sender, msg)).after.connections == t.connections
  {
  }

  lemma DispatchPreservesInvariant(t: Tables, sender: Id, msg: Inbound)
    requires Invariant(t) && sender in t.connections
    ensures Invariant(Outcome(t, DispatchStep(t, sender, msg)).after)
  {
  }

  lemma ConnectPreservesInvariant(t: Tables, id: Id, socket: Handle)
    requires Invariant(t) && id !in t.connections
    ensures var s := ConnectStep(t, id, socket);
      Invariant(s.after) && s.after.rooms == t.rooms && s.after.connections.Keys == t.connections.Keys + {id}
  {
  }

  /** After cleanup `id` is nowhere; every other room keeps its members, and
    * exactly the rooms that held only `id` are gone. */
  lemma CleanupRemoves(t: Tables, id: Id)
    requires Invariant(t)
    ensures var c := Cleaned(t, id);
      && Invariant(c)
      && id !in c.connections
      && (forall r :: r in c.rooms ==> id !in c.rooms[r])
      && (forall r :: r in c.rooms <==> r in t.rooms && t.rooms[r] != {id})
      && (forall r :: r in c.rooms ==> c.rooms[r] == t.rooms[r] - {id})
  {
  }

  /** Whatever the order of the rooms, a disconnect sends one `user_left`
    * to each remaining member of each room `id` was in, and nothing else. */
  lemma CleanupNotifies(t: Tables, id: Id, order: seq<RoomName>, x: Id, m: Msg)
    requires Consistent(t) && Enumerates(order, t.rooms.Keys)
    ensures Received(CleanupStep(t, id, order).emits, x, m)
         == if m.UserLeft? && m.user == id && IsMember(t.rooms, m.room, id) && x in t.rooms[m.room] - {id}
            then 1 else 0
  {
    LeftNoticesOncePerRoom(t.rooms, Cleaned(t, id).connections, id, order, x, m);
  }

  lemma DispatchMembership(t: Tables, sender: Id, msg: Inbound, name: RoomName)
    ensures var after := Outcome(t, DispatchStep(t, sender, msg)).after;
      IsMember(after.rooms, name, sender)
      <==> if msg.JoinRoom? && Given(msg.room) && msg.room.value == name then true
           else if msg.LeaveRoom? && Given(msg.room) && msg.room.value == name then false
           else IsMember(t.rooms, name, sender)
  {
  }

  /** One message changes no one's membership but the sender's. */
  lemma DispatchOthersUnaffected(t: Tables, sender: Id, msg: Inbound, name: RoomName, x: Id)
    requires x != sender
    ensures IsMember(Outcome(t, DispatchStep(t, sender, msg)).after.rooms, name, x) <==> IsMember(t.rooms, name, x)
  {
    if msg.LeaveRoom? && Given(msg.room) && IsMember(t.rooms, msg.room.value, sender) && msg.room.value == name {
      assert x in t.rooms[name] <==> x in t.rooms[name] - {sender};
    }
  }

  /** A connection is in a room exactly when its last join_room/leave_room
    * for that room was a join (or, with neither, when it already was). */
  lemma {:induction false} MembershipFollowsLastTouch(t: Tables, sender: Id, msgs: seq<Inbound>, name: RoomName)
    ensures IsMember(Session(t, sender, msgs).after.rooms, name, sender)
        <==> LastTouch(msgs, name) == Some(true)
             || (LastTouch(msgs, name) == None && IsMember(t.rooms, name, sender))
    decreases |msgs|
  {
    if msgs != [] {
      var init := msgs[..|msgs| - 1];
      MembershipFollowsLastTouch(t, sender, init, name);
      DispatchMembership(Session(t, sender, init).after, sender, msgs[|msgs| - 1], name);
    }
  }

  /** A session keeps the registry and the invariant, and changes no one's
    * membership but the sender's. */
  lemma {:induction false} SessionKeepsOthers(t: Tables, sender: Id, msgs: seq<Inbound>)
    requires Invariant(t) && sender in t.connections
    ensures var after := Session(t, sender, msgs).after;
      && Invariant(after) && after.connections == t.connections
      && forall name, x :: x != sender ==> (IsMember(after.rooms, name, x) <==> IsMember(t.rooms, name, x))
    decreases |msgs|
  {
    if msgs != [] {
      var init := msgs[..|msgs| - 1];
      var before := Session(t, sender, init).after;
      SessionKeepsOthers(t, sender, init);
      DispatchPreservesInvariant(before, sender, msgs[|msgs| - 1]);
      forall name, x | x != sender
        ensures IsMember(Session(t, sender, msgs).after.rooms, name, x) <==> IsMember(t.rooms, name, x)
      {
        DispatchOthersUnaffected(before, sender, msgs[|msgs| - 1], name, x);
      }
    }
  }

  /** Over a whole connection, `id` is in a room at the end of its session
    * exactly when its last join_room/leave_room for that room was a join. */
  lemma HandlerMembership(t: Tables, id: Id, socket: Handle, msgs: seq<Inbound>, name: RoomName)
    requires Invariant(t) && id !in t.connections
    ensures var s := Session(ConnectStep(t, id, socket).after, id, msgs[..SessionLength(msgs)]);
      IsMember(s.after.rooms, name, id) <==> LastTouch(msgs[..SessionLength(msgs)], name) == Some(true)
  {
    MembershipFollowsLastTouch(ConnectStep(t, id, socket).after, id, msgs[..SessionLength(msgs)], name);
  }

  /** A whole connection leaves the registry as it found it, `id` in no
    * room, everyone else's memberships as they were and the invariant
    * intact; its first delivery is the connection id. */
  lemma HandlerLeavesNoTrace(t: Tables, id: Id, socket: Handle, msgs: seq<Inbound>, order: seq<RoomName>)
    requires Invariant(t) && id !in t.connections
    ensures var h := HandlerStep(t, id, socket, msgs, order);
      && Invariant(h.after)
      && h.after.connections == t.connections
      && (forall r :: r in h.after.rooms ==> id !in h.after.rooms[r])
      && (forall name, x :: x != id ==> (IsMember(h.after.rooms, name, x) <==> IsMember(t.rooms, name, x)))
      && h.emits[0] == Emit({id}, ConnectionId(id))
  {
    var c := ConnectStep(t, id, socket);
    ConnectPreservesInvariant(t, id, socket);
    SessionKeepsOthers(c.after, id, msgs[..SessionLength(msgs)]);
    var s := Session(c.after, id, msgs[..SessionLength(msgs)]);
    CleanupRemoves(s.after, id);
    assert s.after.connections - {id} == t.connections;
  }

  // ---------------------------------------------------------------------
  // The server object

  class WebSocketRoomServer {
    var connections: map<Id, Handle>
    var rooms: Rooms
    /** Every delivery made so far, in order. */
    var outbox: Outbox
    /** Every id ever registered: an id is never handed out twice. */
    ghost var issued: set<Id>

    function Snapshot(): Tables
      reads this
    {
      Tables(connections, rooms)
    }

    ghost predicate Valid()
      reads this
    {
      Invariant(Snapshot()) && connections.Keys <= issued
    }

    /** The tables are now `step.after` and the sends since the old state
      * are `step.emits`. */
    twostate predicate Performed(step: Step)
      reads this
    {
      Snapshot() == step.after && Sent(old(outbox), outbox, step.emits) && issued == old(issued)
    }

    constructor ()
      ensures Valid() && connections == map[] && rooms == map[] && outbox == [] && issued == {}
    {
      connections, rooms, outbox := map[], map[], [];
      issued := {};
    }

    /** `send_json` on the socket of `id`. */
    method SendJson(id: Id, msg: Msg)
      modifies this`outbox
      ensures outbox == old(outbox) + [(id, msg)]
    {
      outbox := outbox + [(id, msg)];
    }

    method SendTo(id: Id, msg: Msg)
      modifies this`outbox
      ensures outbox == old(outbox) + if id in connections then [(id, msg)] else []
    {
      if id in connections {
        SendJson(id, msg);
      }
    }

    /** `send_error_to`: the error goes out only if `id` is registered. */
    method SendErrorTo(id: Id, kind: ErrorKind)
      modifies this`outbox
      ensures Sent(old(outbox), outbox, [Unicast(connections, id, Error(kind))])
    {
      if id in connections {
        SentOne(outbox, id, Error(kind));
        SendJson(id, Error(kind));
      } else {
        SentNothing(outbox, Error(kind));
      }
    }

    /** `broadcast_to_room`: one send_to per member of a snapshot of the room. */
    method BroadcastToRoom(name: RoomName, msg: Msg)
      modifies this`outbox
      ensures Sent(old(outbox), outbox, [Broadcast(Snapshot(), name, msg)])
    {
      SendEach(Members(rooms, name), msg);
      SentFanOut(old(outbox), outbox, Broadcast(Snapshot(), name, msg));
    }

    /** The loop of broadcast_to_room over its snapshot `members`. */
    method SendEach(members: set<Id>, msg: Msg)
      modifies this`outbox
      ensures old(outbox) <= outbox
      ensures multiset(outbox[|old(outbox)|..]) == Deliveries(members * connections.Keys, msg)
    {
      var pending := members;
      ghost var done: set<Id> := {};
      while pending != {}
        invariant pending + done == members && pending !! done
        invariant old(outbox) <= outbox
        invariant multiset(outbox[|old(outbox)|..]) == Deliveries(done * connections.Keys, msg)
        decreases pending
      {
        var member :| member in pending;
        DeliveriesGrow(old(outbox), outbox, member, msg, done, connections.Keys);
        SendTo(member, msg);
        pending := pending - {member};
        done := done + {member};
      }
    }

    /** The start of `handler`: register the connection and send it its id. */
    method Connect(id: Id, socket: Handle)
      requires Valid() && id !in issued
      modifies this
      ensures Valid() && issued == old(issued) + {id}
      ensures Snapshot() == ConnectStep(old(Snapshot()), id, socket).after
      ensures Sent(old(outbox), outbox, ConnectStep(old(Snapshot()), id, socket).emits)
    {
      connections := connections[id := socket];
      issued := issued + {id};
      SentOne(outbox, id, ConnectionId(id));
      SendJson(id, ConnectionId(id));
    }

    method HandleJoinRoom(sender: Id, room: Option<string>)
      modifies this`rooms, this`outbox
      ensures Performed(JoinRoomStep(old(Snapshot()), sender, room))
    {
      if !Given(room) {
        SendErrorTo(sender, RoomRequired);
        return;
      }
      var name := room.value;
      rooms := Join(rooms, name, sender);
      ghost var o1 := outbox;
      BroadcastToRoom(name, UserJoined(sender, name));
      ghost var o2 := outbox;
      SentUnicast(outbox, connections, sender, JoinedRoom(name));
      SendTo(sender, JoinedRoom(name));
      SentChain(old(outbox), o2, outbox, [Broadcast(Snapshot(), name, UserJoined(sender, name))],
                [Unicast(connections, sender, JoinedRoom(name))]);
    }

    method HandleLeaveRoom(sender: Id, room: Option<string>)
      modifies this`rooms, this`outbox
      ensures Performed(LeaveRoomStep(old(Snapshot()), sender, room))
    {
      if !Given(room) {
        SendErrorTo(sender, RoomRequired);
        return;
      }
      var name := room.value;
      if name !in rooms || sender !in rooms[name] {
        SendErrorTo(sender, NotInRoom);
        return;
      }
      ghost var step := LeaveRoomStep(Snapshot(), sender, room);
      rooms := rooms[name := rooms[name] - {sender}];
      assert step.after == if rooms[name] == {} then Tables(connections, rooms - {name}) else Snapshot();
      assert step.emits == [Broadcast(Snapshot(), name, UserLeft(sender, name)),
                            Unicast(connections, sender, LeftRoom(name))];
      AnnounceLeave(sender, name);
      if rooms[name] == {} {
        rooms := rooms - {name};
      }
    }

    /** The two sends of a successful leave_room: user_left to the room,
      * then left_room to the sender. */
    method AnnounceLeave(sender: Id, name: RoomName)
      modifies this`outbox
      ensures Sent(old(outbox), outbox, [Broadcast(Snapshot(), name, UserLeft(sender, name)),
                                         Unicast(connections, sender, LeftRoom(name))])
    {
      BroadcastToRoom(name, UserLeft(sender, name));
      ghost var o1 := outbox;
      SentUnicast(outbox, connections, sender, LeftRoom(name));
      SendTo(sender, LeftRoom(name));
      SentTwo(old(outbox), o1, outbox, Broadcast(Snapshot(), name, UserLeft(sender, name)),
              Unicast(connections, sender, LeftRoom(name)));
    }

    method HandleSendRoom(sender: Id, room: Option<string>, payload: Option<Json>)
      modifies this`rooms, this`outbox
      ensures Performed(SendRoomStep(old(Snapshot()), sender, room, payload))
    {
      var body := PayloadOrEmpty(payload);
      if !Given(room) {
        SendErrorTo(sender, RoomRequired);
        return;
      }
      var name := room.value;
      if name !in rooms || sender !in rooms[name] {
        SendErrorTo(sender, NotInRoom);
        return;
      }
      BroadcastToRoom(name, RoomMessage(name, sender, body));
    }

    method HandleSendUser(sender: Id, to: Option<string>, payload: Option<Json>)
      modifies this`rooms, this`outbox
      ensures Performed(SendUserStep(old(Snapshot()), sender, to, payload))
    {
      var body := PayloadOrEmpty(payload);
      if !Given(to) {
        SendErrorTo(sender, RecipientMissing);
        return;
      }
      if to.value !in connections {
        SendErrorTo(sender, RecipientUnknown);
        return;
      }
      SentUnicast(outbox, connections, to.value, UserMessage(sender, body));
      SendTo(to.value, UserMessage(sender, body));
    }

    method HandleGetInfo(sender: Id, room: Option<string>, info: Option<string>)
      modifies this`rooms, this`outbox
      ensures Performed(GetInfoStep(old(Snapshot()), sender, room, info))
    {
      if !Given(room) {
        SendErrorTo(sender, RoomRequired);
        return;
      }
      var name := room.value;
      if name !in rooms || sender !in rooms[name] {
        SendErrorTo(sender, NotInRoom);
        return;
      }
      if !Given(info) {
        SendErrorTo(sender, InfoRequired);
        return;
      }
      if info.value == "users" {
        SendRoomUsers(sender, name);
      } else {
        SendErrorTo(sender, UnknownInfo(info.value));
      }
    }

    /** `send_room_users`: the room's member set, to `id`. */
    method SendRoomUsers(id: Id, name: RoomName)
      requires name in rooms
      modifies this`outbox
      ensures Sent(old(outbox), outbox, [Unicast(connections, id, CurrentUsers(name, rooms[name]))])
    {
      SentUnicast(outbox, connections, id, CurrentUsers(name, rooms[name]));
      SendTo(id, CurrentUsers(name, rooms[name]));
    }

    /** The body of the receive loop of `handler`: handle one inbound
      * message; false when the message raised and the session is over. */
    method Receive(sender: Id, msg: Inbound) returns (open: bool)
      requires Valid() && sender in connections
      modifies this`rooms, this`outbox
      ensures Valid()
      ensures open <==> !msg.NotAnObject?
      ensures open == DispatchStep(old(Snapshot()), sender, msg).Continue?
      ensures Performed(Outcome(old(Snapshot()), DispatchStep(old(Snapshot()), sender, msg)))
    {
      DispatchPreservesInvariant(Snapshot(), sender, msg);
      open := true;
      match msg
      case JoinRoom(room) => HandleJoinRoom(sender, room);
      case LeaveRoom(room) => HandleLeaveRoom(sender, room);
      case SendRoom(room, payload) => HandleSendRoom(sender, room, payload);
      case SendUser(to, payload) => HandleSendUser(sender, to, payload);
      case GetInfo(room, info) => HandleGetInfo(sender, room, info);
      case Unknown(msgType) =>
        SentOne(outbox, sender, Error(UnknownType(msgType)));
        SendJson(sender, Error(UnknownType(msgType)));
      case InvalidJson =>
        SentOne(outbox, sender, Error(MalformedJson));
        SendJson(sender, Error(MalformedJson));
      case NotAnObject =>
        open := false;
        SentEmpty(outbox);
    }

    /** `cleanup_connection(id)`: unregister, leave every room with a
      * `user_left` broadcast, then delete the rooms that became empty. */
    method CleanupConnection(id: Id)
      requires Valid()
      modifies this`connections, this`rooms, this`outbox
      ensures Valid() && issued == old(issued)
      ensures Snapshot() == Cleaned(old(Snapshot()), id)
      ensures exists order :: Enumerates(order, old(rooms).Keys)
                && Sent(old(outbox), outbox, CleanupStep(old(Snapshot()), id, order).emits)
      ensures old(outbox) <= outbox
    {
      CleanupRemoves(Snapshot(), id);
      connections := connections - {id};
      var toDelete, order := LeaveEveryRoom(id);
      DeleteRooms(toDelete);
      PurgeThenDelete(old(rooms), id, rooms);
      assert CleanupStep(old(Snapshot()), id, order).emits == LeftNotices(old(rooms), connections, id, order);
      SentGrows(old(outbox), outbox, LeftNotices(old(rooms), connections, id, order));
    }

    /** The first loop of cleanup_connection: remove `id` from each room that
      * holds it, broadcast `user_left` to the rest, and list the rooms this
      * leaves empty. `order` is the order in which the rooms were visited. */
    method LeaveEveryRoom(id: Id) returns (toDelete: seq<RoomName>, ghost order: seq<RoomName>)
      modifies this`rooms, this`outbox
      ensures Enumerates(order, old(rooms).Keys)
      ensures rooms == PurgeKeeping(old(rooms), id)
      ensures forall r :: r in toDelete <==> Emptied(old(rooms), id, r)
      ensures Sent(old(outbox), outbox, LeftNotices(old(rooms), connections, id, order))
    {
      ghost var rooms0 := rooms;
      order := [];
      ghost var visited: set<RoomName> := {};
      var pending := rooms.Keys;
      toDelete := [];
      SentEmpty(outbox);
      while pending != {}
        invariant pending + visited == rooms0.Keys && pending !! visited
        invariant Partway(rooms0, id, visited, order, toDelete, old(outbox))
        decreases pending
      {
        var r :| r in pending;
        toDelete, order := VisitRoom(rooms0, id, r, visited, order, toDelete, old(outbox));
        visited := visited + {r};
        pending := pending - {r};
      }
      PurgedInAll(rooms0, id);
    }

    /** The state of cleanup_connection's first loop once the rooms in
      * `visited` (listed in `order`) have been handled. */
    ghost predicate Partway(rooms0: Rooms, id: Id, visited: set<RoomName>, order: seq<RoomName>,
                            toDelete: seq<RoomName>, start: Outbox)
      reads this
    {
      && Distinct(order) && (forall r :: r in order <==> r in visited)
      && rooms == PurgedIn(rooms0, id, visited)
      && (forall r :: r in toDelete <==> r in visited && Emptied(rooms0, id, r))
      && Sent(start, outbox, LeftNotices(rooms0, connections, id, order))
    }

    /** One iteration of that loop, for room `r`. */
    method VisitRoom(ghost rooms0: Rooms, id: Id, r: RoomName, ghost visited: set<RoomName>, ghost order: seq<RoomName>,
                     toDelete: seq<RoomName>, ghost start: Outbox)
      returns (toDelete': seq<RoomName>, ghost order': seq<RoomName>)
      requires r in rooms0 && r !in visited
      requires Partway(rooms0, id, visited, order, toDelete, start)
      modifies this`rooms, this`outbox
      ensures Partway(rooms0, id, visited + {r}, order', toDelete', start)
    {
      ghost var o1 := outbox;
      PurgedInStep(rooms0, id, visited, r);
      var emptied := LeaveOne(rooms0, id, r);
      toDelete' := if emptied then toDelete + [r] else toDelete;
      SentNoticesSnoc(start, o1, outbox, rooms0, connections, id, order, r);
      DistinctSnoc(order, r);
      order' := order + [r];
    }

    /** Leave room `r`, which still holds what it held in `rooms0`, and
      * notify the rest of it. */
    method LeaveOne(ghost rooms0: Rooms, id: Id, r: RoomName) returns (emptied: bool)
      requires r in rooms0 && r in rooms && rooms[r] == rooms0[r]
      modifies this`rooms, this`outbox
      ensures rooms == old(rooms)[r := rooms0[r] - {id}]
      ensures emptied <==> Emptied(rooms0, id, r)
      ensures Sent(old(outbox), outbox, LeftNotice(rooms0, connections, id, r))
    {
      emptied := false;
      if id in rooms[r] {
        rooms := rooms[r := rooms[r] - {id}];
        BroadcastToRoom(r, UserLeft(id, r));
        emptied := rooms[r] == {};
      } else {
        assert rooms[r] - {id} == rooms[r];
        SentEmpty(outbox);
      }
    }

    /** The second loop of cleanup_connection: `del self.rooms[name]` for each. */
    method DeleteRooms(names: seq<RoomName>)
      modifies this`rooms
      ensures forall r :: r in rooms <==> r in old(rooms) && r !in names
      ensures forall r :: r in rooms ==> rooms[r] == old(rooms)[r]
    {
      for i := 0 to |names|
        invariant forall r :: r in rooms <==> r in old(rooms) && r !in names[..i]
        invariant forall r :: r in rooms ==> rooms[r] == old(rooms)[r]
      {
        assert names[..i + 1] == names[..i] + [names[i]];
        rooms := rooms - {names[i]};
      }
      assert names[..|names|] == names;
    }

    /** `handler`: one whole session. Whatever the messages, and whether the
      * session ends at the end of the input or because a message raised,
      * the connection is cleaned up exactly once at the end. */
    method Handler(id: Id, socket: Handle, inbox: seq<Inbound>)
      requires Valid() && id !in issued
      modifies this
      ensures Valid() && issued == old(issued) + {id}
      ensures exists order :: Enumerates(order, Session(ConnectStep(old(Snapshot()), id, socket).after,
                                                         id, inbox[..SessionLength(inbox)]).after.rooms.Keys)
                && Snapshot() == HandlerStep(old(Snapshot()), id, socket, inbox, order).after
                && Sent(old(outbox), outbox, HandlerStep(old(Snapshot()), id, socket, inbox, order).emits)
    {
      ghost var t0 := Snapshot();
      ghost var c := ConnectStep(t0, id, socket);
      Connect(id, socket);
      ghost var o1 := outbox;
      Serve(id, inbox);
      ghost var s := Session(c.after, id, inbox[..SessionLength(inbox)]);
      ghost var o2 := outbox;
      CleanupConnection(id);
      ghost var order :| Enumerates(order, s.after.rooms.Keys)
                         && Sent(o2, outbox, CleanupStep(s.after, id, order).emits);
      SentChain(old(outbox), o1, o2, c.emits, s.emits);
      SentChain(old(outbox), o2, outbox, c.emits + s.emits, CleanupStep(s.after, id, order).emits);
    }

    /** The session loop: receive until the input ends or a message raises. */
    method Serve(id: Id, inbox: seq<Inbound>)
      requires Valid() && id in connections
      modifies this`rooms, this`outbox
      ensures Valid()
      ensures Performed(Session(old(Snapshot()), id, inbox[..SessionLength(inbox)]))
    {
      var i := 0;
      var open := true;
      SentEmpty(outbox);
      while i < |inbox| && open
        invariant 0 <= i <= |inbox|
        invariant Valid() && id in connections
        invariant open ==> SessionLength(inbox) == i + SessionLength(inbox[i..])
        invariant !open ==> SessionLength(inbox) == i
        invariant Snapshot() == Session(old(Snapshot()), id, inbox[..i]).after
        invariant Sent(old(outbox), outbox, Session(old(Snapshot()), id, inbox[..i]).emits)
      {
        ghost var o1, t := outbox, Snapshot();
        open := Receive(id, inbox[i]);
        assert inbox[..i + 1][..i] == inbox[..i];
        assert inbox[i..][1..] == inbox[i + 1..];
        SentSessionStep(old(Snapshot()), id, inbox, i, old(outbox), o1, outbox);
        i := i + 1;
      }
      assert open ==> inbox[i..] == [];
    }
  }
}
