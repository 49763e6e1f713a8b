/** Only proposed values are ever put to the vote, accepted or chosen, and a retry proposes again. */
module PaxosValidity {
  import opened Quorums
  import opened Bits
  import opened PaxosModel
  import opened PaxosCluster
  import opened PaxosSafety
  import T = PaxosTally

  // ----- Values that were proposed -----

  /** The values proposed by the first `i` events. */
  function ProposedBy(events: seq<Event>, i: nat): set<nat>
    requires i <= |events|
  {
    set k: nat | k < i && events[k].Proposal? :: events[k].val
  }

  /** What a message puts to the vote or reports as accepted is among `vals`. */
  predicate MessageFrom(vals: set<nat>, m: Message) {
    && (m.kind == Accept ==> m.val in vals)
    && (m.kind == Promise && m.hasAccepted ==> m.acceptedVal in vals)
  }

  /** So is whatever a node proposes, has accepted, has heard of, or is about to send. */
  predicate NodeFrom(vals: set<nat>, n: NodeState) {
    && (n.phase != Idle ==> n.myVal in vals)
    && (n.hasBest ==> n.bestVal in vals)
    && (n.hasAccepted ==> n.acceptedVal in vals)
    && (forall a :: a in n.accepts ==> a.val in vals)
    && (forall m :: m in n.outbound ==> MessageFrom(vals, m))
  }

  ghost predicate ClusterFrom(vals: set<nat>, c: Cluster) {
    && (forall v :: v in c.nodes ==> NodeFrom(vals, c.nodes[v]))
    && (forall m :: m in c.network ==> MessageFrom(vals, m))
  }

  // ----- One call -----

  lemma {:induction false} SendAllFrom(vals: set<nat>, n: NodeState, kind: Kind, val: nat, k: nat)
    requires NodeFrom(vals, n) && k <= |n.peers| && kind != Promise && (kind == Accept ==> val in vals)
    ensures NodeFrom(vals, SendAll(n, kind, val, k))
    decreases |n.peers| - k
  {
    if k < |n.peers| {
      SendAllFrom(vals, n.(outbound := n.outbound + [Message(kind, n.id, n.peers[k], n.myNum, val, false, 0, 0, false)]), kind, val, k + 1);
    }
  }

  lemma RecordPromiseFrom(vals: set<nat>, n: NodeState, from: Id, num: nat, val: nat, has: bool)
    requires NodeId(n.id) && NodeId(from) && NodeFrom(vals, n) && n.phase != Idle && (has ==> val in vals)
    ensures NodeFrom(vals, RecordPromise(n, from, num, val, has))
  {
    hide SendAll, Or, NodeBit, Popcount;
    var n1 := Count(n, from, num, val, has);
    assert NodeFrom(vals, n1);
    var n2 := VoteOwn(Adopt(n1));
    assert NodeFrom(vals, n2);
    SendAllFrom(vals, n2, Accept, n2.myVal, 0);
  }

  lemma ProposeFrom(vals: set<nat>, n: NodeState, val: nat)
    requires Valid(n) && NodeFrom(vals, n) && val in vals
    ensures NodeFrom(vals, Propose(n, val))
  {
    hide SendAll, RecordPromise, NextRound, NumberOf;
    var n1 := Fresh(n, val);
    var n2 := OnPrepare(n1, n1.myNum);
    RecordPromiseFrom(vals, n2, n2.id, n1.acceptedNum, n1.acceptedVal, n1.hasAccepted);
    var n3 := if n1.myNum > n1.promised then RecordPromise(n2, n2.id, n1.acceptedNum, n1.acceptedVal, n1.hasAccepted) else n2;
    SendAllFrom(vals, n3, Prepare, 0, 0);
  }

  lemma TickFrom(vals: set<nat>, n: NodeState)
    requires Valid(n) && NodeFrom(vals, n)
    ensures NodeFrom(vals, Tick(n))
  {
    hide Propose;
    if n.phase == Preparing || n.phase == Accepting { ProposeFrom(vals, n.(elapsed := n.elapsed + 1), n.myVal); }
  }

  lemma StepFrom(vals: set<nat>, n: NodeState, m: Message)
    requires Valid(n) && NodeId(m.from) && NodeFrom(vals, n) && MessageFrom(vals, m)
    ensures NodeFrom(vals, Step(n, m))
  {
    hide RecordPromise, Or, NodeBit, Popcount;
    if m.kind == Promise && n.phase == Preparing { RecordPromiseFrom(vals, n, m.from, m.acceptedNum, m.acceptedVal, m.hasAccepted); }
  }

  // ----- Whole runs -----

  lemma MoreValues(vals: set<nat>, more: set<nat>, c: Cluster)
    requires ClusterFrom(vals, c) && vals <= more
    ensures ClusterFrom(more, c)
  {
    forall v | v in c.nodes ensures NodeFrom(more, c.nodes[v]) { assert NodeFrom(vals, c.nodes[v]); }
  }

  lemma NextFrom(vals: set<nat>, c: Cluster, e: Event)
    requires Enabled(c, e) && ClusterFrom(vals, c) && (e.Proposal? ==> e.val in vals)
    ensures ClusterFrom(vals, Next(c, e))
  {
    hide Propose, Tick, Step, MessageFrom;
    match e {
      case Proposal(id, val) => ProposeFrom(vals, c.nodes[id], val);
      case Clock(id) => TickFrom(vals, c.nodes[id]);
      case Drain(id) => assert NodeFrom(vals, c.nodes[id]);
      case Deliver(m) => StepFrom(vals, c.nodes[m.to], m);
      case Lose(m) =>
      case Duplicate(m) =>
    }
  }

  /** In every state of every run, each value accepted, put to the vote, reported as accepted or
      being proposed is the value of some proposal made so far. */
  lemma {:induction false} Validity(states: seq<Cluster>, events: seq<Event>, i: nat)
    requires Run(states, events) && i < |states|
    ensures ClusterFrom(ProposedBy(events, i), states[i])
  {
    hide ClusterFrom;
    if i == 0 {
      StartsFrom(ProposedBy(events, 0), states[0]);
    } else {
      var k := i - 1;
      Validity(states, events, k);
      MoreValues(ProposedBy(events, k), ProposedBy(events, i), states[k]);
      NextFrom(ProposedBy(events, i), states[k], events[k]);
    }
  }

  lemma StartsFrom(vals: set<nat>, c: Cluster)
    requires Init(c)
    ensures ClusterFrom(vals, c)
  {
    hide PeersFrom;
  }

  ghost predicate WasProposed(events: seq<Event>, i: nat, val: nat) {
    exists k :: 0 <= k < i <= |events| && events[k].Proposal? && events[k].val == val
  }

  lemma AcceptedWasProposed(states: seq<Cluster>, events: seq<Event>, i: nat, a: Id, x: Acceptance)
    requires Run(states, events) && i < |states| && a in states[i].nodes && x in states[i].nodes[a].accepts
    ensures WasProposed(events, i, x.val)
  {
    Validity(states, events, i);
    assert NodeFrom(ProposedBy(events, i), states[i].nodes[a]);
    assert x.val in ProposedBy(events, i);
  }

  /** A chosen value was proposed. */
  lemma ChosenWasProposed(states: seq<Cluster>, events: seq<Event>, i: nat, num: nat, val: nat)
    requires Run(states, events) && i < |states| && ChosenAt(states[i], num, val)
    ensures WasProposed(events, i, val)
  {
    hide Run;
    var voters := AcceptedBy(states[i], num, val);
    var a :| a in voters;
    AcceptedWasProposed(states, events, i, a, Acceptance(num, val));
  }

  /** So was the value a node has decided on. */
  lemma DecidedWasProposed(states: seq<Cluster>, events: seq<Event>, i: nat, v: Id)
    requires Run(states, events) && i < |states| && v in states[i].nodes && states[i].nodes[v].phase == Decided
    ensures WasProposed(events, i, states[i].nodes[v].myVal)
  {
    Validity(states, events, i);
    assert NodeFrom(ProposedBy(events, i), states[i].nodes[v]);
    assert states[i].nodes[v].myVal in ProposedBy(events, i);
  }

  lemma {:induction false} CountedIsHeld(hs: seq<seq<Acceptance>>, i: nat, a: Acceptance)
    requires i <= |hs| && 0 < T.Count(hs, i, a)
    ensures exists k :: 0 <= k < i && a in hs[k]
  {
    if a !in hs[i - 1] { CountedIsHeld(hs, i - 1, a); }
  }

  /** And every value in the tally, duplicated messages or not. */
  lemma TalliedWasProposed(states: seq<Cluster>, events: seq<Event>, i: nat, v: nat)
    requires Run(states, events) && i < |states| && states[i].nodes.Keys == Ids(states[i].size)
    requires v in T.Tally(T.Histories(states[i]))
    ensures WasProposed(events, i, v)
  {
    hide Run, T.Tally;
    var hs := T.Histories(states[i]);
    T.TallyAre(hs, v);
    var num: nat :| T.Popular(hs, Acceptance(num, v));
    CountedIsHeld(hs, |hs|, Acceptance(num, v));
    var k :| 0 <= k < |hs| && Acceptance(num, v) in hs[k];
    assert k + 1 in Ids(states[i].size);
    AcceptedWasProposed(states, events, i, k + 1, Acceptance(num, v));
  }

  // ----- A retry -----

  lemma {:induction false} SentToAll(n: NodeState, kind: Kind, val: nat, k: nat, j: nat)
    requires k <= |n.peers| && j < |n.peers|
    ensures n.outbound <= SendAll(n, kind, val, k).outbound
    ensures k <= j ==> Message(kind, n.id, n.peers[j], n.myNum, val, false, 0, 0, false) in SendAll(n, kind, val, k).outbound
    decreases |n.peers| - k
  {
    if k < |n.peers| {
      var m := Message(kind, n.id, n.peers[k], n.myNum, val, false, 0, 0, false);
      SentToAll(n.(outbound := n.outbound + [m]), kind, val, k + 1, j);
      assert SendAll(n, kind, val, k).outbound[|n.outbound|] == m;
    }
  }

  lemma NumberAbove(n: NodeState)
    requires Valid(n)
    ensures NumberOf(NextRound(n), n.size, n.id) > n.promised
    ensures n.round + 1 <= NextRound(n)
  {
    var q := n.promised / n.size;
    Multiply(q + 1, NextRound(n), n.size);
    assert q * n.size + n.promised % n.size == n.promised;
  }

  lemma Multiply(a: nat, b: nat, c: nat)
    requires a <= b
    ensures a * c <= b * c
  {
  }

  lemma OwnBit(id: Id)
    requires NodeId(id)
    ensures Popcount(Or(0, NodeBit(id))) == 1
  {
    hide Popcount, NodeBit, Or, Pow2;
    OrMembers(0, NodeBit(id));
    ZeroMembers();
    BitMembers(id);
    assert Or(0, NodeBit(id)) == NodeBit(id) by { OrZero(NodeBit(id)); }
    PopcountIsSize(NodeBit(id));
  }

  lemma OrZero(m: nat)
    ensures Or(0, m) == m
  {
  }

  lemma AskedAll(n: NodeState)
    ensures forall p :: p in n.peers ==> Message(Prepare, n.id, p, n.myNum, 0, false, 0, 0, false) in SendAll(n, Prepare, 0, 0).outbound
  {
    hide SendAll;
    forall p | p in n.peers ensures Message(Prepare, n.id, p, n.myNum, 0, false, 0, 0, false) in SendAll(n, Prepare, 0, 0).outbound {
      var j: nat :| j < |n.peers| && n.peers[j] == p;
      SentToAll(n, Prepare, 0, 0, j);
    }
  }

  /** A node that has waited long enough for a majority starts over: with a number above all it has
      promised, with a request to every peer, and still for its own value, unless it is alone. */
  lemma RetryIs(n: NodeState)
    requires Valid(n) && (n.phase == Preparing || n.phase == Accepting) && n.elapsed + 1 >= n.timeout
    ensures var r := Tick(n);
      && n.promised < r.myNum == r.promised && n.round < r.round && r.elapsed == 0
      && (n.size > 1 ==> r.phase == Preparing && r.myVal == n.myVal && r.accepts == n.accepts)
      && (n.size == 1 ==> r.phase == Decided && r.myVal == (if n.hasAccepted then n.acceptedVal else n.myVal) && r.accepts == n.accepts + [Acceptance(r.myNum, r.myVal)])
      && (forall p :: p in n.peers ==> Message(Prepare, n.id, p, r.myNum, 0, false, 0, 0, false) in r.outbound)
  {
    hide SendAll, NextRound, NumberOf, Or, NodeBit, Popcount;
    var n0 := n.(elapsed := n.elapsed + 1);
    NumberAbove(n0);
    var n1 := Fresh(n0, n.myVal);
    var n2 := OnPrepare(n1, n1.myNum);
    var n3 := RecordPromise(n2, n2.id, n1.acceptedNum, n1.acceptedVal, n1.hasAccepted);
    OwnBit(n.id);
    AskedAll(n3);
  }
}
