/** The token ring: at most one node ever holds the token, even if the network duplicates messages. */
module TokenRing {
  import opened Quorums

  datatype Message = Message(from: Id, to: Id, sequence: nat)

  datatype Node = Node(holding: bool, sequence: nat, outbound: seq<Message>)

  datatype State = State(ids: seq<Id>, nodes: map<Id, Node>, passes: nat)

  /** The identifier after `id` in ring order, or zero for a stranger. */
  function Successor(ids: seq<Id>, id: Id): Id {
    SuccessorFrom(ids, id, 0)
  }

  function SuccessorFrom(ids: seq<Id>, id: Id, i: nat): Id
    requires i <= |ids|
    decreases |ids| - i
  {
    if i == |ids| then 0 else if ids[i] == id then ids[(i + 1) % |ids|] else SuccessorFrom(ids, id, i + 1)
  }

  function Advance(s: State, id: Id): State {
    if id !in s.nodes || !s.nodes[id].holding then s
    else
      var n := s.nodes[id];
      var m := Message(id, Successor(s.ids, id), n.sequence + 1);
      s.(nodes := s.nodes[id := Node(false, n.sequence + 1, n.outbound + [m])], passes := s.passes + 1)
  }

  /** Strangers, misrouted messages and stale sequence numbers are ignored. */
  function Receive(s: State, id: Id, m: Message): State {
    if id !in s.nodes || m.to != id || m.from !in s.nodes || m.sequence <= s.nodes[id].sequence then s
    else s.(nodes := s.nodes[id := s.nodes[id].(sequence := m.sequence, holding := true)])
  }

  function TakeOutbound(s: State, id: Id): State {
    if id !in s.nodes then s else s.(nodes := s.nodes[id := s.nodes[id].(outbound := [])])
  }

  function Ids(count: nat): seq<Id> { seq(count, i => i + 1) }

  /** Nodes `1..count`, the first of which holds the token. */
  function Fresh(count: nat): State {
    State(Ids(count), map id: Id | id in Ids(count) :: Node(id == 1, 0, []), 0)
  }

  function HoldersAmong(ids: seq<Id>, nodes: map<Id, Node>): (r: seq<Id>)
    requires forall id :: id in ids ==> id in nodes
    ensures forall id :: id in r <==> id in ids && nodes[id].holding
  {
    if ids == [] then []
    else
      var k := |ids| - 1;
      HoldersAmong(ids[..k], nodes) + if nodes[ids[k]].holding then [ids[k]] else []
  }

  // ----- Uniqueness -----

  /** A network that remembers everything ever sent and may deliver it any number of times. */
  datatype World = World(ring: State, sent: set<Message>)

  ghost predicate InFlight(w: World, m: Message) {
    m in w.sent || exists id :: id in w.ring.nodes && m in w.ring.nodes[id].outbound
  }

  predicate Stale(s: State, m: Message) {
    m.to in s.nodes && m.sequence <= s.nodes[m.to].sequence
  }

  /** Only the latest pass can still be accepted. */
  ghost predicate MessageOk(s: State, m: Message) {
    m.to in s.nodes && m.sequence <= s.passes && (m.sequence < s.passes ==> Stale(s, m))
  }

  ghost predicate Holder(s: State, id: Id) {
    id in s.nodes && s.nodes[id].holding
  }

  ghost predicate Inv(w: World) {
    && (forall id :: id in w.ring.nodes ==> w.ring.nodes[id].sequence <= w.ring.passes)
    && (forall m {:trigger InFlight(w, m)} :: InFlight(w, m) ==> MessageOk(w.ring, m))
    // The latest pass has one destination.
    && (forall m, m' {:trigger InFlight(w, m), InFlight(w, m')} ::
          InFlight(w, m) && InFlight(w, m') && m.sequence == m'.sequence == w.ring.passes ==> m.to == m'.to)
    // A holder has the latest number, and then nothing at all can be accepted.
    && (forall id {:trigger Holder(w.ring, id)} :: Holder(w.ring, id) ==> w.ring.nodes[id].sequence == w.ring.passes)
    && (forall id, m {:trigger Holder(w.ring, id), InFlight(w, m)} :: Holder(w.ring, id) && InFlight(w, m) ==> Stale(w.ring, m))
    && (forall id, id' {:trigger Holder(w.ring, id), Holder(w.ring, id')} :: Holder(w.ring, id) && Holder(w.ring, id') ==> id == id')
  }

  ghost predicate WellFormed(s: State) {
    && 2 <= |s.ids| && (forall i, j :: 0 <= i < j < |s.ids| ==> s.ids[i] != s.ids[j])
    && (forall id :: id in s.nodes <==> id in s.ids)
  }

  lemma {:induction false} SuccessorIsOther(ids: seq<Id>, id: Id, i: nat)
    requires 2 <= |ids| && (forall i, j :: 0 <= i < j < |ids| ==> ids[i] != ids[j]) && i <= |ids| && id in ids[i..]
    ensures SuccessorFrom(ids, id, i) in ids && SuccessorFrom(ids, id, i) != id
    decreases |ids| - i
  {
    if ids[i] == id {
      var j := (i + 1) % |ids|;
      assert j != i && ids[j] in ids;
    } else {
      SuccessorIsOther(ids, id, i + 1);
    }
  }

  lemma AdvanceKeeps(w: World, id: Id)
    requires Inv(w) && WellFormed(w.ring)
    ensures var w' := w.(ring := Advance(w.ring, id)); Inv(w') && WellFormed(w'.ring)
  {
    hide InFlight;
    var s, t := w.ring, Advance(w.ring, id);
    var w' := w.(ring := t);
    if Holder(s, id) {
      var fresh' := Message(id, Successor(s.ids, id), s.nodes[id].sequence + 1);
      assert s.ids[0..] == s.ids;
      SuccessorIsOther(s.ids, id, 0);
      forall m | InFlight(w', m) ensures m == fresh' || (InFlight(w, m) && Stale(t, m)) {
        Outgoing(w, w', id, fresh', m);
      }
      forall v ensures Holder(t, v) ==> v != id && Holder(s, v) { }
      assert t.passes == s.passes + 1;
    }
  }

  lemma Outgoing(w: World, w': World, id: Id, fresh': Message, m: Message)
    requires id in w.ring.nodes && InFlight(w', m) && w'.sent == w.sent && id in w'.ring.nodes
    requires w'.ring.nodes == w.ring.nodes[id := w'.ring.nodes[id]] && w'.ring.nodes[id].outbound == w.ring.nodes[id].outbound + [fresh']
    ensures m == fresh' || InFlight(w, m)
  {
    if m !in w.sent {
      var v :| v in w'.ring.nodes && m in w'.ring.nodes[v].outbound;
      if v != id { assert m in w.ring.nodes[v].outbound; }
    }
  }

  lemma ReceiveKeeps(w: World, id: Id, m: Message)
    requires Inv(w) && WellFormed(w.ring) && m in w.sent
    ensures var w' := w.(ring := Receive(w.ring, id, m)); Inv(w') && WellFormed(w'.ring)
  {
    hide InFlight;
    var s, t := w.ring, Receive(w.ring, id, m);
    var w' := w.(ring := t);
    if t != s {
      SentIsInFlight(w, m);
      forall x | InFlight(w', x) ensures InFlight(w, x) && Stale(t, x) {
        Unsent(w, w', x);
        assert MessageOk(s, x) && MessageOk(s, m);
      }
      forall v ensures Holder(t, v) ==> v == id || Holder(s, v) { }
    }
  }

  lemma SentIsInFlight(w: World, m: Message)
    requires m in w.sent
    ensures InFlight(w, m)
  {
  }

  /** Without a change of queues nothing new is in flight. */
  lemma Unsent(w: World, w': World, m: Message)
    requires InFlight(w', m) && w'.sent == w.sent && w'.ring.nodes.Keys == w.ring.nodes.Keys
    requires forall v :: v in w.ring.nodes ==> w'.ring.nodes[v].outbound == w.ring.nodes[v].outbound
    ensures InFlight(w, m)
  {
  }

  lemma TakeKeeps(w: World, id: Id)
    requires Inv(w) && WellFormed(w.ring) && id in w.ring.nodes
    ensures var w' := World(TakeOutbound(w.ring, id), w.sent + set m | m in w.ring.nodes[id].outbound); Inv(w') && WellFormed(w'.ring)
  {
    hide InFlight;
    var w' := World(TakeOutbound(w.ring, id), w.sent + set m | m in w.ring.nodes[id].outbound);
    forall m | InFlight(w', m) ensures InFlight(w, m) && Stale(w'.ring, m) == Stale(w.ring, m) { Moved(w, w', id, m); }
    forall v ensures Holder(w'.ring, v) <==> Holder(w.ring, v) { }
  }

  lemma Moved(w: World, w': World, id: Id, m: Message)
    requires id in w.ring.nodes && InFlight(w', m) && w'.ring == TakeOutbound(w.ring, id)
    requires forall x :: x in w'.sent ==> x in w.sent || x in w.ring.nodes[id].outbound
    ensures InFlight(w, m)
  {
    if m !in w'.sent {
      var v :| v in w'.ring.nodes && m in w'.ring.nodes[v].outbound;
      assert m in w.ring.nodes[v].outbound;
    }
  }

  // ----- Runs -----

  datatype Event = Pass(id: Id) | Deliver(id: Id, m: Message) | Take(id: Id)

  predicate Enabled(w: World, e: Event) {
    match e
    case Deliver(_, m) => m in w.sent
    case Take(id) => id in w.ring.nodes
    case Pass(_) => true
  }

  function Next(w: World, e: Event): World
    requires Enabled(w, e)
  {
    match e
    case Pass(id) => w.(ring := Advance(w.ring, id))
    case Deliver(id, m) => w.(ring := Receive(w.ring, id, m))
    case Take(id) => World(TakeOutbound(w.ring, id), w.sent + set m | m in w.ring.nodes[id].outbound)
  }

  ghost predicate Run(states: seq<World>, events: seq<Event>, count: nat) {
    && |states| == |events| + 1 && 2 <= count && states[0] == World(Fresh(count), {})
    && (forall i :: 0 <= i < |events| ==> Enabled(states[i], events[i]) && states[i + 1] == Next(states[i], events[i]))
  }

  lemma {:induction false} Always(states: seq<World>, events: seq<Event>, count: nat, i: nat)
    requires Run(states, events, count) && i < |states|
    ensures Inv(states[i]) && WellFormed(states[i].ring)
    decreases i
  {
    hide Inv, WellFormed, Advance, Receive, TakeOutbound;
    if i == 0 {
      FreshHolds(count);
    } else {
      Always(states, events, count, i - 1);
      match events[i - 1] {
        case Pass(id) => AdvanceKeeps(states[i - 1], id);
        case Deliver(id, m) => ReceiveKeeps(states[i - 1], id, m);
        case Take(id) => TakeKeeps(states[i - 1], id);
      }
    }
  }

  lemma FreshHolds(count: nat)
    requires 2 <= count
    ensures Inv(World(Fresh(count), {})) && WellFormed(Fresh(count))
  {
  }

  /** In every run at most one node holds the token, for any ring size, whatever is lost,
      reordered or delivered again. */
  lemma TokenIsUnique(states: seq<World>, events: seq<Event>, count: nat, i: nat, a: Id, b: Id)
    requires Run(states, events, count) && i < |states|
    requires a in states[i].ring.nodes && b in states[i].ring.nodes && states[i].ring.nodes[a].holding && states[i].ring.nodes[b].holding
    ensures a == b
  {
    Always(states, events, count, i);
    assert Holder(states[i].ring, a) && Holder(states[i].ring, b);
  }

  // ----- Rotation -----

  /** The node that holds the token after `k` passes. */
  function Turn(k: nat, count: nat): (id: Id)
    requires 0 < count
    ensures 1 <= id <= count
  {
    if k == 0 then 1 else if Turn(k - 1, count) == count then 1 else Turn(k - 1, count) + 1
  }

  predicate InTurn(m: Message, count: nat)
    requires 0 < count
  {
    0 < m.sequence && m.from == Turn(m.sequence - 1, count) && m.to == Turn(m.sequence, count)
  }

  /** The latest pass, not yet taken. */
  ghost predicate Pending(w: World, m: Message) {
    InFlight(w, m) && m.sequence == w.ring.passes && !Stale(w.ring, m)
  }

  /** The token goes round in order, and is never lost: somebody holds it, or the latest pass is
      still to be taken. */
  ghost predicate Rotates(w: World, count: nat)
    requires 0 < count
  {
    && w.ring.ids == Ids(count)
    && (forall id :: Holder(w.ring, id) ==> id == Turn(w.ring.passes, count))
    && (forall m {:trigger InFlight(w, m)} :: InFlight(w, m) ==> InTurn(m, count))
    && ((exists id :: Holder(w.ring, id)) || (exists m :: Pending(w, m)))
  }

  lemma {:induction false} SuccessorIs(count: nat, id: Id, i: nat)
    requires 1 <= id <= count && i < id
    ensures SuccessorFrom(Ids(count), id, i) == if id == count then 1 else id + 1
    decreases id - i
  {
    if i + 1 < id { SuccessorIs(count, id, i + 1); } else { Wraps(id, count); }
  }

  lemma Wraps(x: nat, count: nat)
    requires 0 < x <= count
    ensures x % count == if x == count then 0 else x
  {
  }

  lemma AdvanceRotates(w: World, count: nat, id: Id)
    requires Inv(w) && WellFormed(w.ring) && 0 < count && Rotates(w, count)
    ensures Rotates(w.(ring := Advance(w.ring, id)), count)
  {
    hide InFlight, Turn, InTurn, Pending, Successor;
    var s, t := w.ring, Advance(w.ring, id);
    var w' := w.(ring := t);
    if Holder(s, id) {
      var m0 := Message(id, Successor(s.ids, id), s.passes + 1);
      PassedInTurn(count, s.passes, m0);
      forall m | InFlight(w', m) ensures InTurn(m, count) {
        Outgoing(w, w', id, m0, m);
      }
      NextIsOther(s, id);
      Queued(w', id, m0);
      forall v ensures !Holder(t, v) { assert Holder(t, v) ==> Holder(s, v) && v != id; }
    } else {
      assert t == s;
    }
  }

  lemma PassedInTurn(count: nat, passes: nat, m: Message)
    requires 0 < count && m.from == Turn(passes, count) && m.to == Successor(Ids(count), m.from) && m.sequence == passes + 1
    ensures InTurn(m, count)
  {
    SuccessorIs(count, m.from, 0);
  }

  lemma NextIsOther(s: State, id: Id)
    requires WellFormed(s) && id in s.nodes
    ensures Successor(s.ids, id) in s.nodes && Successor(s.ids, id) != id
  {
    assert s.ids[0..] == s.ids;
    SuccessorIsOther(s.ids, id, 0);
  }

  lemma Queued(w: World, id: Id, m: Message)
    requires id in w.ring.nodes && m in w.ring.nodes[id].outbound && m.to in w.ring.nodes && m.sequence == w.ring.passes && w.ring.nodes[m.to].sequence < m.sequence
    ensures Pending(w, m)
  {
  }

  lemma ReceiveRotates(w: World, count: nat, id: Id, m: Message)
    requires Inv(w) && WellFormed(w.ring) && 0 < count && Rotates(w, count) && m in w.sent
    ensures Rotates(w.(ring := Receive(w.ring, id, m)), count)
  {
    hide InFlight, Turn;
    var s, t := w.ring, Receive(w.ring, id, m);
    var w' := w.(ring := t);
    if t != s {
      SentIsInFlight(w, m);
      assert MessageOk(s, m) && m.sequence == s.passes;
      forall x | InFlight(w', x) ensures InFlight(w, x) { Unsent(w, w', x); }
      forall v ensures Holder(t, v) ==> v == id || Holder(s, v) { }
      assert Holder(t, id);
    } else {
      assert w' == w;
    }
  }

  lemma TakeRotates(w: World, count: nat, id: Id)
    requires 0 < count && Rotates(w, count) && id in w.ring.nodes
    ensures Rotates(World(TakeOutbound(w.ring, id), w.sent + set m | m in w.ring.nodes[id].outbound), count)
  {
    hide Turn, InFlight;
    var w' := World(TakeOutbound(w.ring, id), w.sent + set m | m in w.ring.nodes[id].outbound);
    forall m | InFlight(w', m) ensures InFlight(w, m) { Moved(w, w', id, m); }
    forall v ensures Holder(w'.ring, v) <==> Holder(w.ring, v) { }
    if m :| Pending(w, m) {
      StillThere(w, w', id, m);
      assert Pending(w', m);
    } else {
      var v :| Holder(w.ring, v);
      assert Holder(w'.ring, v);
    }
  }

  lemma StillThere(w: World, w': World, id: Id, m: Message)
    requires InFlight(w, m) && id in w.ring.nodes && w' == World(TakeOutbound(w.ring, id), w.sent + set x | x in w.ring.nodes[id].outbound)
    ensures InFlight(w', m)
  {
    if m !in w.sent {
      var v :| v in w.ring.nodes && m in w.ring.nodes[v].outbound;
      if v != id { assert m in w'.ring.nodes[v].outbound; }
    }
  }

  /** In every run the `k`-th pass is from the `k`-th node in turn to the next, whoever holds the
      token is the node whose turn it is, and the token is never lost for good. */
  lemma {:induction false} TokenGoesRound(states: seq<World>, events: seq<Event>, count: nat, i: nat)
    requires Run(states, events, count) && i < |states|
    ensures Rotates(states[i], count)
    decreases i
  {
    hide Inv, WellFormed, Advance, Receive, TakeOutbound, Rotates;
    if i == 0 {
      FreshRotates(count);
    } else {
      TokenGoesRound(states, events, count, i - 1);
      Always(states, events, count, i - 1);
      match events[i - 1] {
        case Pass(id) => AdvanceRotates(states[i - 1], count, id);
        case Deliver(id, m) => ReceiveRotates(states[i - 1], count, id, m);
        case Take(id) => TakeRotates(states[i - 1], count, id);
      }
    }
  }

  lemma FreshRotates(count: nat)
    requires 2 <= count
    ensures Rotates(World(Fresh(count), {}), count)
  {
    var w := World(Fresh(count), {});
    assert Ids(count)[0] == 1;
    assert Holder(w.ring, 1);
    assert forall m :: !InFlight(w, m);
  }

  /** No node's sequence number ever goes back. */
  lemma NumbersGrow(w: World, e: Event, v: Id)
    requires Enabled(w, e) && v in w.ring.nodes
    ensures v in Next(w, e).ring.nodes && w.ring.nodes[v].sequence <= Next(w, e).ring.nodes[v].sequence
  {
  }

  lemma {:induction false} StaysStale(states: seq<World>, events: seq<Event>, count: nat, i: nat, j: nat, m: Message)
    requires Run(states, events, count) && i <= j < |states| && Stale(states[i].ring, m)
    ensures Stale(states[j].ring, m)
    decreases j - i
  {
    hide Next;
    if i < j {
      StaysStale(states, events, count, i, j - 1, m);
      assert Enabled(states[j - 1], events[j - 1]) && states[j] == Next(states[j - 1], events[j - 1]);
      NumbersGrow(states[j - 1], events[j - 1], m.to);
    }
  }

  /** A message that has been accepted once is stale for the rest of the run: delivering it again,
      to whomever and whenever, changes nothing. */
  lemma RepeatIsIgnored(states: seq<World>, events: seq<Event>, count: nat, i: nat, j: nat, id: Id, m: Message)
    requires Run(states, events, count) && i < j < |states| && events[i] == Deliver(id, m) && states[i + 1].ring != states[i].ring
    ensures Stale(states[j].ring, m) && forall v :: Receive(states[j].ring, v, m) == states[j].ring
  {
    assert Enabled(states[i], events[i]) && states[i + 1] == Next(states[i], events[i]);
    StaysStale(states, events, count, i + 1, j, m);
  }
}

/** The ring as the program updates it, in place. */
module TokenRingClass {
  import opened Quorums
  import opened R = TokenRing

  class Ring {
    var ids: seq<Id>
    var nodes: map<Id, Node>
    var passes: nat

    ghost function View(): State
      reads this
    {
      State(ids, nodes, passes)
    }

    /** A ring needs at least two nodes. */
    static method New(count: int) returns (ring: Ring?)
      ensures ring == null <==> count < 2
      ensures ring != null ==> fresh(ring) && ring.View() == Fresh(count)
    {
      if count < 2 { return null; }
      ring := new Ring(count);
    }

    constructor (count: nat)
      requires 2 <= count
      ensures View() == Fresh(count)
    {
      var list: seq<Id> := [];
      var table: map<Id, Node> := map[];
      var index := 0;
      while index < count
        invariant index <= count && list == Ids(index)
        invariant table == map id: Id | id in list :: Node(false, 0, [])
      {
        list := list + [index + 1];
        table := table[index + 1 := Node(false, 0, [])];
        index := index + 1;
      }
      assert 1 in Ids(count) by { assert Ids(count)[0] == 1; }
      ids, nodes, passes := list, table[1 := Node(true, 0, [])], 0;
    }

    method SuccessorOf(id: Id) returns (next: Id)
      ensures next == Successor(ids, id)
    {
      var i := 0;
      while i < |ids|
        invariant i <= |ids| && SuccessorFrom(ids, id, i) == SuccessorFrom(ids, id, 0)
      {
        if ids[i] == id { return ids[(i + 1) % |ids|]; }
        i := i + 1;
      }
      return 0;
    }

    method Advance(id: Id)
      modifies this
      ensures View() == R.Advance(old(View()), id)
    {
      if id !in nodes || !nodes[id].holding { return; }
      var n := nodes[id];
      var next := SuccessorOf(id);
      var message := Message(id, next, n.sequence + 1);
      nodes := nodes[id := Node(false, n.sequence + 1, n.outbound + [message])];
      passes := passes + 1;
    }

    method Receive(id: Id, m: Message)
      modifies this
      ensures View() == R.Receive(old(View()), id, m)
    {
      if id !in nodes || m.to != id { return; }
      if m.from !in nodes { return; }
      var n := nodes[id];
      if m.sequence <= n.sequence { return; }
      nodes := nodes[id := n.(sequence := m.sequence, holding := true)];
    }

    method TakeOutbound(id: Id) returns (out: seq<Message>)
      modifies this
      ensures View() == R.TakeOutbound(old(View()), id)
      ensures out == if id in old(nodes) then old(nodes)[id].outbound else []
    {
      if id !in nodes { return []; }
      out := nodes[id].outbound;
      nodes := nodes[id := nodes[id].(outbound := [])];
    }

    /** The holders, in ring order. */
    method HolderIDs() returns (holders: seq<Id>)
      requires forall id :: id in ids ==> id in nodes
      ensures holders == HoldersAmong(ids, nodes)
    {
      holders := [];
      var i := 0;
      while i < |ids|
        invariant i <= |ids| && holders == HoldersAmong(ids[..i], nodes)
      {
        if nodes[ids[i]].holding { holders := holders + [ids[i]]; }
        i := i + 1;
        assert ids[..i][..i - 1] == ids[..i - 1];
      }
      assert ids[..i] == ids;
    }
  }
}
