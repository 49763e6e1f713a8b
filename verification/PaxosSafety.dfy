/** What holds in every run of a Paxos cluster, however messages are lost, reordered or duplicated. */
module PaxosSafety {
  import opened Quorums
  import opened Bits
  import opened PaxosModel
  import opened PaxosCluster
  import P = PaxosProtocol

  /** Nodes that have accepted `val` under number `num`. */
  function AcceptedBy(c: Cluster, num: nat, val: nat): set<Id> {
    set a | a in c.nodes && Acceptance(num, val) in c.nodes[a].accepts
  }

  /** A majority of the nodes has accepted `val` under one number. */
  predicate ChosenAt(c: Cluster, num: nat, val: nat) {
    IsQuorum(c.nodes.Keys, AcceptedBy(c, num, val))
  }

  ghost predicate Behind(ss: seq<P.State>, states: seq<Cluster>) {
    && |ss| == |states|
    && (forall i :: 0 <= i < |ss| ==> Rel(ss[i], states[i]))
    && (forall i, j :: 0 <= i <= j < |ss| ==> P.Evolves(ss[i], ss[j]))
  }

  /** Every run is a run of the protocol. */
  lemma {:induction false} ProtocolBehind(states: seq<Cluster>, events: seq<Event>) returns (ss: seq<P.State>)
    requires Run(states, events)
    ensures Behind(ss, states)
    decreases |events|
  {
    hide Rel, P.Evolves, Init, Enabled, Next;
    if |events| == 0 {
      var s := InitRel(states[0]);
      EvolvesSelf(s);
      ss := [s];
    } else {
      var k := |events| - 1;
      var before := ProtocolBehind(states[..k + 1], events[..k]);
      var t := NextRel(before[k], states[k], events[k]);
      EvolvesSelf(t);
      forall i | 0 <= i <= k ensures P.Evolves(before[i], t) { P.EvolvesFurther(before[i], before[k], t); }
      ss := before + [t];
    }
  }

  /** A run can take any call on any node, and deliver, lose or repeat any message under way. */
  lemma AnyCallIsEnabled(states: seq<Cluster>, events: seq<Event>, i: nat, e: Event)
    requires Run(states, events) && i < |states|
    ensures Enabled(states[i], e) <==>
      if e.Deliver? || e.Lose? || e.Duplicate? then e.m in states[i].network else e.id in states[i].nodes
  {
    hide Rel, P.Evolves, Init, Next;
    var ss := ProtocolBehind(states, events);
    assert Rel(ss[i], states[i]);
    if e.Deliver? {
      if e.m in states[i].network { EndsStand(ss[i], states[i], e.m); }
    } else if !e.Lose? && !e.Duplicate? && e.id in states[i].nodes {
      NodeStands(ss[i], states[i], e.id);
    }
  }

  lemma NodeStands(s: P.State, c: Cluster, v: Id)
    requires Rel(s, c) && v in c.nodes
    ensures Valid(c.nodes[v]) && NodeId(v)
  {
    hide P.Inv, Known, Tracks;
    assert Named(c.size, v);
  }

  lemma EndsStand(s: P.State, c: Cluster, m: Message)
    requires Rel(s, c) && m in c.network
    ensures m.to in c.nodes && Valid(c.nodes[m.to]) && NodeId(m.from)
  {
    hide P.Inv, Tracks;
    assert Known(s, m);
    NodeStands(s, c, m.to);
    NodeStands(s, c, m.from);
  }

  /** A history holds what its acceptor voted for. */
  lemma AcceptedIsVote(s: P.State, n: NodeState, num: nat, val: nat)
    requires Tracks(s, n)
    ensures Acceptance(num, val) in n.accepts <==> num in s.acceptors[n.id].votes && s.acceptors[n.id].votes[num] == val
  {
    hide Known, ProposerOk, PeeredAs, NumberIs;
    VotesAre(n.accepts, num);
    if Acceptance(num, val) in n.accepts {
      var i :| 0 <= i < |n.accepts| && n.accepts[i] == Acceptance(num, val);
      assert n.accepts[i].num == num;
    }
  }

  lemma AcceptedAreVoters(s: P.State, c: Cluster, num: nat, val: nat)
    requires Rel(s, c)
    ensures s.acceptors.Keys == c.nodes.Keys && P.Inv(s) && AcceptedBy(c, num, val) == P.VotersOf(s, num, val)
  {
    hide P.Inv, Known, Tracks;
    forall a | a in c.nodes ensures a in AcceptedBy(c, num, val) <==> a in P.VotersOf(s, num, val) {
      AcceptedIsVote(s, c.nodes[a], num, val);
    }
  }

  /** At most one value is ever accepted by a majority, under any numbers and at any moments. */
  lemma Agreement(states: seq<Cluster>, events: seq<Event>, i: nat, j: nat, num: nat, val: nat, num': nat, val': nat)
    requires Run(states, events) && i < |states| && j < |states|
    requires ChosenAt(states[i], num, val) && ChosenAt(states[j], num', val')
    ensures val == val'
  {
    hide Rel, Run, P.Inv, P.Evolves, AcceptedBy, P.VotersOf, IsQuorum;
    var ss := ProtocolBehind(states, events);
    var k := if i <= j then j else i;
    assert Rel(ss[i], states[i]) && Rel(ss[j], states[j]) && Rel(ss[k], states[k]) && P.Evolves(ss[i], ss[k]) && P.Evolves(ss[j], ss[k]);
    AcceptedAreVoters(ss[i], states[i], num, val);
    AcceptedAreVoters(ss[j], states[j], num', val');
    AcceptedAreVoters(ss[k], states[k], num, val);
    P.ChosenAfter(ss[i], ss[k], num, val);
    P.ChosenAfter(ss[j], ss[k], num', val');
    if num <= num' { P.Agreement(ss[k], num, val, num', val'); } else { P.Agreement(ss[k], num', val', num, val); }
  }

  /** A chosen value stays chosen. */
  lemma ChosenForever(states: seq<Cluster>, events: seq<Event>, i: nat, j: nat, num: nat, val: nat)
    requires Run(states, events) && i <= j < |states| && ChosenAt(states[i], num, val)
    ensures ChosenAt(states[j], num, val)
  {
    hide Rel, Run, P.Inv, P.Evolves, AcceptedBy, P.VotersOf, IsQuorum;
    var ss := ProtocolBehind(states, events);
    assert Rel(ss[i], states[i]) && Rel(ss[j], states[j]) && P.Evolves(ss[i], ss[j]);
    AcceptedAreVoters(ss[i], states[i], num, val);
    AcceptedAreVoters(ss[j], states[j], num, val);
    P.ChosenAfter(ss[i], ss[j], num, val);
  }

  /** A node that believes its proposal was chosen is right. */
  lemma DecidedIsChosen(states: seq<Cluster>, events: seq<Event>, i: nat, v: Id)
    requires Run(states, events) && i < |states| && v in states[i].nodes && states[i].nodes[v].phase == Decided
    ensures ChosenAt(states[i], states[i].nodes[v].myNum, states[i].nodes[v].myVal)
  {
    hide Run, P.Evolves, P.Inv, Known, Tracks, IsQuorum, AcceptedBy, P.VotersOf;
    var ss := ProtocolBehind(states, events);
    assert Rel(ss[i], states[i]);
    var n := states[i].nodes[v];
    AcceptedAreVoters(ss[i], states[i], n.myNum, n.myVal);
    DecidedByMajority(ss[i], n);
  }

  lemma DecidedByMajority(s: P.State, n: NodeState)
    requires P.Inv(s) && Tracks(s, n) && n.phase == Decided
    ensures P.Chosen(s, n.myNum, n.myVal)
  {
    hide Known, PeeredAs, NumberIs;
    forall a | a in Members(n.acceptMask) ensures a in P.VotersOf(s, n.myNum, n.myVal) {
      assert P.GoodAcceptor(s, s.acceptors[a]);
    }
    QuorumGrows(s.acceptors.Keys, Members(n.acceptMask), P.VotersOf(s, n.myNum, n.myVal));
  }

  /** Two nodes that believe their proposals were chosen hold the same value, then and later. */
  lemma DecidedAgree(states: seq<Cluster>, events: seq<Event>, i: nat, j: nat, v: Id, w: Id)
    requires Run(states, events) && i < |states| && j < |states| && v in states[i].nodes && w in states[j].nodes
    requires states[i].nodes[v].phase == Decided && states[j].nodes[w].phase == Decided
    ensures states[i].nodes[v].myVal == states[j].nodes[w].myVal
  {
    hide Run, ChosenAt;
    DecidedIsChosen(states, events, i, v);
    DecidedIsChosen(states, events, j, w);
    var n, m := states[i].nodes[v], states[j].nodes[w];
    Agreement(states, events, i, j, n.myNum, n.myVal, m.myNum, m.myVal);
  }

  /** No number is ever used for two values. */
  lemma OneValuePerNumber(states: seq<Cluster>, events: seq<Event>, i: nat, j: nat, a: Id, b: Id, num: nat, val: nat, val': nat)
    requires Run(states, events) && i <= j < |states| && a in states[i].nodes && b in states[j].nodes
    requires Acceptance(num, val) in states[i].nodes[a].accepts && Acceptance(num, val') in states[j].nodes[b].accepts
    ensures val == val'
  {
    hide Run, P.Inv, Known, PeeredAs, NumberIs, ProposerOk, Summarised;
    var ss := ProtocolBehind(states, events);
    assert Rel(ss[i], states[i]) && Rel(ss[j], states[j]) && P.Evolves(ss[i], ss[j]);
    assert Tracks(ss[i], states[i].nodes[a]) && Tracks(ss[j], states[j].nodes[b]);
  }
}
