/**
 * What a sequence of sends puts on the wire. The relay's outbox is the
 * sequence of (recipient, message) deliveries in the order they were made.
 * A handler's effect on the outbox is described by a list of Emits: each
 * Emit is one message for a SET of recipients, delivered to each of them
 * exactly once and in no particular order (the relay iterates over Python
 * sets), and the Emits follow one another in the order of the list.
 */
module Delivery {
  import opened Protocol

  type Outbox = seq<(Id, Msg)>

  datatype Emit = Emit(to: set<Id>, msg: Msg)

  /** `send_to`: the message reaches `id` only if `id` is still registered. */
  function Unicast(connections: map<Id, Handle>, id: Id, msg: Msg): Emit
  {
    Emit(if id in connections then {id} else {}, msg)
  }

  /** A send on a socket the caller holds, with no registry lookup. */
  function Direct(id: Id, msg: Msg): Emit
  {
    Emit({id}, msg)
  }

  /** One delivery of `msg` to each member of `to`. */
  function Deliveries(to: set<Id>, msg: Msg): multiset<(Id, Msg)>
  {
    multiset(set x | x in to :: (x, msg))
  }

  /** `s` delivers `e.msg` to each member of `e.to` exactly once, and nothing else. */
  ghost predicate FanOut(s: Outbox, e: Emit)
  {
    multiset(s) == Deliveries(e.to, e.msg)
  }

  /** `s` is the Emits of `emits`, one after the other. */
  ghost predicate Realizes(s: Outbox, emits: seq<Emit>)
    decreases |emits|
  {
    if emits == [] then s == []
    else
      var k := |emits[0].to|;
      k <= |s| && FanOut(s[..k], emits[0]) && Realizes(s[k..], emits[1..])
  }

  /** The outbox went from `before` to `after` by appending `emits`. */
  ghost predicate Sent(before: Outbox, after: Outbox, emits: seq<Emit>)
  {
    |before| <= |after| && after[..|before|] == before && Realizes(after[|before|..], emits)
  }

  /** How many times the Emits deliver `m` to `x`. */
  function Received(emits: seq<Emit>, x: Id, m: Msg): nat
  {
    if emits == [] then 0
    else (if emits[0].msg == m && x in emits[0].to then 1 else 0) + Received(emits[1..], x, m)
  }

  lemma DeliveriesAt(to: set<Id>, msg: Msg, x: Id, m: Msg)
    ensures Deliveries(to, msg)[(x, m)] == if x in to && m == msg then 1 else 0
  {
  }

  lemma {:induction false} DeliveriesSize(to: set<Id>, msg: Msg)
    ensures |Deliveries(to, msg)| == |to|
    decreases |to|
  {
    if to != {} {
      var x :| x in to;
      DeliveriesSize(to - {x}, msg);
      DeliveriesAdd(to - {x}, msg, x);
      assert to - {x} + {x} == to;
    }
  }

  /** Adding a new recipient adds exactly its one delivery. */
  lemma DeliveriesAdd(to: set<Id>, msg: Msg, x: Id)
    requires x !in to
    ensures Deliveries(to + {x}, msg) == Deliveries(to, msg) + multiset{(x, msg)}
  {
  }

  /** One more send_json in a loop over recipients: the deliveries since
    * `start` grow by exactly that one. */
  lemma DeliveriesStep(start: Outbox, before: Outbox, x: Id, msg: Msg, done: set<Id>)
    requires start <= before && x !in done
    requires multiset(before[|start|..]) == Deliveries(done, msg)
    ensures start <= before + [(x, msg)]
    ensures multiset((before + [(x, msg)])[|start|..]) == Deliveries(done + {x}, msg)
  {
    assert (before + [(x, msg)])[|start|..] == before[|start|..] + [(x, msg)];
    DeliveriesAdd(done, msg, x);
  }

  /** One more send_to in a broadcast loop: the deliveries since `start`
    * grow by the new member's one delivery if it is registered. */
  lemma DeliveriesGrow(start: Outbox, before: Outbox, x: Id, msg: Msg, done: set<Id>, registered: set<Id>)
    requires start <= before && x !in done
    requires multiset(before[|start|..]) == Deliveries(done * registered, msg)
    ensures var after := before + if x in registered then [(x, msg)] else [];
      start <= after && multiset(after[|start|..]) == Deliveries((done + {x}) * registered, msg)
  {
    var after := before + if x in registered then [(x, msg)] else [];
    assert after[|start|..] == before[|start|..] + if x in registered then [(x, msg)] else [];
    if x in registered {
      DeliveriesAdd(done * registered, msg, x);
      assert (done + {x}) * registered == done * registered + {x};
    } else {
      assert (done + {x}) * registered == done * registered;
    }
  }

  /** A fan-out makes exactly one delivery per recipient. */
  lemma FanOutSize(s: Outbox, e: Emit)
    requires FanOut(s, e)
    ensures |s| == |e.to|
  {
    assert |multiset(s)| == |s|;
    DeliveriesSize(e.to, e.msg);
  }

  lemma RealizesSingle(s: Outbox, e: Emit)
    requires FanOut(s, e)
    ensures Realizes(s, [e])
  {
    FanOutSize(s, e);
    assert s[..|e.to|] == s;
    assert [e][1..] == [];
  }

  /** The sends since `before` are one fan-out of `e`. */
  lemma SentFanOut(before: Outbox, after: Outbox, e: Emit)
    requires before <= after && FanOut(after[|before|..], e)
    ensures Sent(before, after, [e])
  {
    RealizesSingle(after[|before|..], e);
  }

  lemma {:induction false} RealizesSize(s: Outbox, emits: seq<Emit>)
    requires Realizes(s, emits)
    ensures |s| == Size(emits)
    decreases |emits|
  {
    if emits != [] {
      var k := |emits[0].to|;
      FanOutSize(s[..k], emits[0]);
      RealizesSize(s[k..], emits[1..]);
    }
  }

  /** The total number of deliveries the Emits make. */
  function Size(emits: seq<Emit>): nat
  {
    if emits == [] then 0 else |emits[0].to| + Size(emits[1..])
  }

  /** When the first Emit is a direct send, the outbox starts with it. */
  lemma SentDirectFirst(before: Outbox, after: Outbox, id: Id, msg: Msg, emits: seq<Emit>)
    requires |emits| > 0 && emits[0] == Direct(id, msg) && Sent(before, after, emits)
    ensures |before| < |after| && after[..|before| + 1] == before + [(id, msg)]
  {
    var s := after[|before|..];
    FanOutSize(s[..1], emits[0]);
    DeliveriesAt({id}, msg, s[0].0, s[0].1);
    assert s[0] in multiset(s[..1]);
    assert after[..|before| + 1] == after[..|before|] + [s[0]];
  }

  /** Sends made one after the other realize their Emits concatenated. */
  lemma {:induction false} RealizesAppend(a: Outbox, ea: seq<Emit>, b: Outbox, eb: seq<Emit>)
    requires Realizes(a, ea) && Realizes(b, eb)
    ensures Realizes(a + b, ea + eb)
    decreases |ea|
  {
    if ea == [] {
      assert a + b == b;
      assert ea + eb == eb;
    } else {
      var k := |ea[0].to|;
      RealizesAppend(a[k..], ea[1..], b, eb);
      assert (a + b)[..k] == a[..k];
      assert (a + b)[k..] == a[k..] + b;
      assert (ea + eb)[0] == ea[0];
      assert (ea + eb)[1..] == ea[1..] + eb;
    }
  }

  lemma SentChain(o0: Outbox, o1: Outbox, o2: Outbox, e1: seq<Emit>, e2: seq<Emit>)
    requires Sent(o0, o1, e1) && Sent(o1, o2, e2)
    ensures Sent(o0, o2, e1 + e2)
  {
    assert o2[..|o0|] == o1[..|o0|];
    assert o2[|o0|..] == o1[|o0|..] + o2[|o1|..];
    RealizesAppend(o1[|o0|..], e1, o2[|o1|..], e2);
  }

  /** Two sends one after the other. */
  lemma SentTwo(o0: Outbox, o1: Outbox, o2: Outbox, e1: Emit, e2: Emit)
    requires Sent(o0, o1, [e1]) && Sent(o1, o2, [e2])
    ensures Sent(o0, o2, [e1, e2])
  {
    SentChain(o0, o1, o2, [e1], [e2]);
    assert [e1] + [e2] == [e1, e2];
  }

  /** Three sends one after the other. */
  lemma SentThree(o0: Outbox, o1: Outbox, o2: Outbox, o3: Outbox, e1: Emit, e2: Emit, e3: Emit)
    requires Sent(o0, o1, [e1]) && Sent(o1, o2, [e2]) && Sent(o2, o3, [e3])
    ensures Sent(o0, o3, [e1, e2, e3])
  {
    SentTwo(o0, o1, o2, e1, e2);
    SentChain(o0, o2, o3, [e1, e2], [e3]);
    assert [e1, e2] + [e3] == [e1, e2, e3];
  }

  lemma {:induction false} ReceivedAppend(a: seq<Emit>, b: seq<Emit>, x: Id, m: Msg)
    ensures Received(a + b, x, m) == Received(a, x, m) + Received(b, x, m)
    decreases |a|
  {
    if a == [] {
      assert a + b == b;
    } else {
      assert (a + b)[0] == a[0];
      assert (a + b)[1..] == a[1..] + b;
      ReceivedAppend(a[1..], b, x, m);
    }
  }

  /** The outbox holds `(x, m)` exactly as often as the Emits promise:
    * once per Emit of `m` whose recipients include `x`, and never otherwise. */
  lemma {:induction false} RealizesReceived(s: Outbox, emits: seq<Emit>, x: Id, m: Msg)
    requires Realizes(s, emits)
    ensures multiset(s)[(x, m)] == Received(emits, x, m)
    decreases |emits|
  {
    if emits != [] {
      var k := |emits[0].to|;
      RealizesReceived(s[k..], emits[1..], x, m);
      DeliveriesAt(emits[0].to, emits[0].msg, x, m);
      assert s == s[..k] + s[k..];
      assert multiset(s) == multiset(s[..k]) + multiset(s[k..]);
    }
  }

  /** A single send_json appends exactly one delivery. */
  lemma SentOne(o: Outbox, id: Id, msg: Msg)
    ensures Sent(o, o + [(id, msg)], [Direct(id, msg)])
  {
  }

  /** An empty send leaves the outbox as it is. */
  lemma SentNothing(o: Outbox, msg: Msg)
    ensures Sent(o, o, [Emit({}, msg)])
  {
  }

  /** A single send_to appends one delivery if its target is registered. */
  lemma SentUnicast(o: Outbox, connections: map<Id, Handle>, id: Id, msg: Msg)
    ensures Sent(o, o + if id in connections then [(id, msg)] else [], [Unicast(connections, id, msg)])
  {
  }

  /** Sends only ever append. */
  lemma SentGrows(before: Outbox, after: Outbox, emits: seq<Emit>)
    requires Sent(before, after, emits)
    ensures before <= after
  {
  }

  /** No sends at all. */
  lemma SentEmpty(o: Outbox)
    ensures Sent(o, o, [])
  {
  }
}
