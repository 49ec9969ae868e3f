/**
 * The two pieces of state both relay versions keep, as values: the
 * connection registry (id -> send handle) and the room table
 * (room name -> set of member ids), with the map operations the handlers
 * perform on them and the description of a handler's effect (Step).
 */
module RoomTable {
  import opened Protocol
  import opened Delivery

  type Rooms = map<RoomName, set<Id>>

  datatype Tables = Tables(connections: map<Id, Handle>, rooms: Rooms)

  /** What a handler does: the tables afterwards, and its sends in order. */
  datatype Step = Step(after: Tables, emits: seq<Emit>)

  /** The dispatcher either handles a message and the session goes on, or
    * the message raises and the session ends (and is cleaned up). */
  datatype Dispatched = Continue(step: Step) | Close

  /** The tables and sends of a dispatch; ending the session sends nothing. */
  function Outcome(t: Tables, d: Dispatched): Step
  {
    match d
    case Continue(step) => step
    case Close => Step(t, [])
  }

  /** No dangling membership: every room member is a registered connection. */
  ghost predicate Consistent(t: Tables)
  {
    forall r :: r in t.rooms ==> t.rooms[r] <= t.connections.Keys
  }

  /** `rooms.get(name, set())`. */
  function Members(rooms: Rooms, name: RoomName): set<Id>
  {
    if name in rooms then rooms[name] else {}
  }

  /** `name in rooms and id in rooms[name]`. */
  predicate IsMember(rooms: Rooms, name: RoomName, id: Id)
  {
    name in rooms && id in rooms[name]
  }

  /** Create the room if absent, then add `id` to it. */
  function Join(rooms: Rooms, name: RoomName, id: Id): Rooms
  {
    rooms[name := Members(rooms, name) + {id}]
  }

  /** `broadcast_to_room`: one send_to per member of a snapshot of the room,
    * so unregistered members (and an absent room) receive nothing. */
  function Broadcast(t: Tables, name: RoomName, msg: Msg): Emit
  {
    Emit(Members(t.rooms, name) * t.connections.Keys, msg)
  }

  /** With no dangling membership a broadcast reaches exactly the room's
    * members, and nobody when the room does not exist. */
  lemma BroadcastRecipients(t: Tables, name: RoomName, msg: Msg)
    requires Consistent(t)
    ensures Broadcast(t, name, msg).to == Members(t.rooms, name)
    ensures name !in t.rooms ==> Broadcast(t, name, msg).to == {}
  {
  }

  /** Remove `id` from every room; rooms that become empty are kept. */
  function PurgeKeeping(rooms: Rooms, id: Id): Rooms
  {
    map r | r in rooms :: rooms[r] - {id}
  }

  /** Remove `id` from every room, deleting the rooms this leaves empty. */
  function PurgeDeleting(rooms: Rooms, id: Id): Rooms
  {
    map r | r in rooms && !(id in rooms[r] && rooms[r] - {id} == {}) :: rooms[r] - {id}
  }

  /** The table part-way through a purge: `id` removed from the rooms in `visited`. */
  function PurgedIn(rooms: Rooms, id: Id, visited: set<RoomName>): Rooms
  {
    map r | r in rooms :: if r in visited then rooms[r] - {id} else rooms[r]
  }

  /** Removing `id` from room `r` left it empty (cleanup then deletes it). */
  predicate Emptied(rooms: Rooms, id: Id, r: RoomName)
  {
    r in rooms && id in rooms[r] && rooms[r] - {id} == {}
  }

  lemma PurgedInStep(rooms: Rooms, id: Id, visited: set<RoomName>, r: RoomName)
    requires r in rooms && r !in visited
    ensures r in PurgedIn(rooms, id, visited) && PurgedIn(rooms, id, visited)[r] == rooms[r]
    ensures PurgedIn(rooms, id, visited)[r := rooms[r] - {id}] == PurgedIn(rooms, id, visited + {r})
  {
  }

  lemma PurgedInAll(rooms: Rooms, id: Id)
    ensures PurgedIn(rooms, id, rooms.Keys) == PurgeKeeping(rooms, id)
  {
  }

  /** Deleting the emptied rooms after purging `id` everywhere leaves the
    * table PurgeDeleting describes. */
  lemma PurgeThenDelete(rooms: Rooms, id: Id, deleted: Rooms)
    requires forall r :: r in deleted <==> r in rooms && !Emptied(rooms, id, r)
    requires forall r :: r in deleted ==> deleted[r] == rooms[r] - {id}
    ensures deleted == PurgeDeleting(rooms, id)
  {
  }

  lemma DistinctSnoc(order: seq<RoomName>, r: RoomName)
    requires Distinct(order) && r !in order
    ensures Distinct(order + [r])
  {
  }

  predicate Distinct(order: seq<RoomName>)
  {
    forall i, j :: 0 <= i < j < |order| ==> order[i] != order[j]
  }

  /** `order` lists every key of the room table exactly once: one possible
    * order of iteration over the table. */
  ghost predicate Enumerates(order: seq<RoomName>, keys: set<RoomName>)
  {
    Distinct(order) && forall r :: r in order <==> r in keys
  }

  /** The `user_left` notices of a disconnect of `id`, visiting the rooms in
    * `order`: each room `id` was in notifies its remaining registered members. */
  function LeftNotices(rooms: Rooms, connections: map<Id, Handle>, id: Id, order: seq<RoomName>): seq<Emit>
    decreases |order|
  {
    if order == [] then []
    else
      var r := order[|order| - 1];
      LeftNotices(rooms, connections, id, order[..|order| - 1]) + LeftNotice(rooms, connections, id, r)
  }

  /** The notice of room `r` alone: none if `id` was not in it. */
  function LeftNotice(rooms: Rooms, connections: map<Id, Handle>, id: Id, r: RoomName): seq<Emit>
  {
    if IsMember(rooms, r, id) then [Emit((rooms[r] - {id}) * connections.Keys, UserLeft(id, r))] else []
  }

  /** The notices so far, followed by those of one more room. */
  lemma SentNoticesSnoc(start: Outbox, o1: Outbox, o2: Outbox, rooms: Rooms, connections: map<Id, Handle>,
                        id: Id, order: seq<RoomName>, r: RoomName)
    requires Sent(start, o1, LeftNotices(rooms, connections, id, order))
    requires Sent(o1, o2, LeftNotice(rooms, connections, id, r))
    ensures Sent(start, o2, LeftNotices(rooms, connections, id, order + [r]))
  {
    SentChain(start, o1, o2, LeftNotices(rooms, connections, id, order), LeftNotice(rooms, connections, id, r));
    assert (order + [r])[..|order|] == order;
  }

  /** Joining twice leaves the same table as joining once. */
  lemma JoinIdempotent(rooms: Rooms, name: RoomName, id: Id)
    ensures Join(Join(rooms, name, id), name, id) == Join(rooms, name, id)
  {
  }

  /** The notices reach exactly the remaining registered members of the
    * rooms `id` was in, once per room, and say nothing else. */
  lemma {:induction false} LeftNoticesReceived(rooms: Rooms, connections: map<Id, Handle>, id: Id,
                                               order: seq<RoomName>, x: Id, m: Msg)
    requires Distinct(order)
    ensures Received(LeftNotices(rooms, connections, id, order), x, m)
         == if m.UserLeft? && m.user == id && m.room in order && IsMember(rooms, m.room, id)
               && x in rooms[m.room] && x != id && x in connections
            then 1 else 0
    decreases |order|
  {
    if order != [] {
      var n := |order| - 1;
      var r := order[n];
      var init := order[..n];
      assert Distinct(init);
      assert r !in init by {
        forall i | 0 <= i < n ensures init[i] != r {
          assert order[i] == init[i];
        }
      }
      assert forall q :: q in order <==> q in init || q == r by {
        assert order == init + [r];
      }
      var last := LeftNotice(rooms, connections, id, r);
      LeftNoticesReceived(rooms, connections, id, init, x, m);
      ReceivedAppend(LeftNotices(rooms, connections, id, init), last, x, m);
      if IsMember(rooms, r, id) {
        assert last[1..] == [];
      }
    }
  }

  /** Over a full enumeration of the table, each room `id` was in sends one
    * `user_left` to each of its remaining registered members. */
  lemma LeftNoticesOncePerRoom(rooms: Rooms, connections: map<Id, Handle>, id: Id,
                               order: seq<RoomName>, x: Id, m: Msg)
    requires Enumerates(order, rooms.Keys)
    ensures Received(LeftNotices(rooms, connections, id, order), x, m)
         == if m.UserLeft? && m.user == id && IsMember(rooms, m.room, id)
               && x in rooms[m.room] && x != id && x in connections
            then 1 else 0
  {
    LeftNoticesReceived(rooms, connections, id, order, x, m);
  }

  /** How many of `msgs` a session reads: up to and including the first
    * message that ends it, or all of them. */
  function SessionLength(msgs: seq<Inbound>): (n: nat)
    ensures n <= |msgs|
    ensures forall i :: 0 <= i < n - 1 ==> !msgs[i].NotAnObject?
    ensures n == |msgs| || (0 < n && msgs[n - 1].NotAnObject?)
    decreases |msgs|
  {
    if msgs == [] then 0
    else if msgs[0].NotAnObject? then 1
    else 1 + SessionLength(msgs[1..])
  }

  /** Whether the last join_room/leave_room naming `name` in `msgs` was a
    * join (Some(true)), a leave (Some(false)), or there was none. */
  function LastTouch(msgs: seq<Inbound>, name: RoomName): Option<bool>
    decreases |msgs|
  {
    if msgs == [] then None
    else
      var m := msgs[|msgs| - 1];
      if m.JoinRoom? && Given(m.room) && m.room.value == name then Some(true)
      else if m.LeaveRoom? && Given(m.room) && m.room.value == name then Some(false)
      else LastTouch(msgs[..|msgs| - 1], name)
  }
}
