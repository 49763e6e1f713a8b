/** When no message is delivered twice, no acceptor accepts twice, and the tally is exact. */
module PaxosOnce {
  import opened Quorums
  import opened Bits
  import opened PaxosModel
  import opened PaxosCluster
  import opened PaxosSafety
  import opened PaxosTally
  import P = PaxosProtocol

  /** The request that puts `x` to the vote of `a` under number `b` of node `v`. */
  function Ballot(v: Id, a: Id, b: nat, x: nat): Message {
    Message(Accept, v, a, b, x, false, 0, 0, false)
  }

  ghost predicate Shaped(size: nat, m: Message) {
    m.kind == Accept ==> m == Ballot(m.from, m.to, m.num, m.val) && Owned(m.num, size, m.from)
  }

  /** Acceptances by `a` of a ballot of `v`, together with the copies still on their way. */
  function Load(c: Cluster, v: Id, a: Id, b: nat, x: nat): nat
    requires v in c.nodes && a in c.nodes
  {
    multiset(c.nodes[a].accepts)[Acceptance(b, x)]
    + if v == a then 0 else c.network[Ballot(v, a, b, x)] + multiset(c.nodes[v].outbound)[Ballot(v, a, b, x)]
  }

  ghost predicate AllShaped(c: Cluster) {
    && (forall m :: m in c.network ==> Shaped(c.size, m))
    && (forall v, m :: v in c.nodes && m in c.nodes[v].outbound ==> Shaped(c.size, m) && m.from == v)
  }

  ghost predicate Once(c: Cluster) {
    && AllShaped(c)
    && (forall v, a, b, x {:trigger Load(c, v, a, b, x)} ::
          v in c.nodes && a in c.nodes && Owned(b, c.size, v) ==> Load(c, v, a, b, x) <= 1)
  }

  // ----- What a call adds -----

  /** `n'` has accepted `acc` and queued `sent` on top of what `n` had. */
  predicate Adds(n: NodeState, n': NodeState, acc: seq<Acceptance>, sent: seq<Message>) {
    && n'.accepts == n.accepts + acc && n'.outbound == n.outbound + sent
    && n'.id == n.id && n'.size == n.size && n'.peers == n.peers
  }

  predicate NoBallots(id: Id, sent: seq<Message>) {
    forall m :: m in sent ==> m.kind != Accept && m.from == id
  }

  /** At most one own vote, and at most one ballot to each peer, all for `x` under number `b`. */
  ghost predicate PutsToVote(id: Id, b: nat, x: nat, acc: seq<Acceptance>, sent: seq<Message>) {
    && (acc == [] || acc == [Acceptance(b, x)])
    && (forall m :: m in sent ==> m.from == id && (m.kind == Accept ==> m == Ballot(id, m.to, b, x)))
    && (forall m: Message :: m.kind == Accept ==> multiset(sent)[m] <= 1)
  }

  function SentTo(n: NodeState, kind: Kind, val: nat, k: nat): seq<Message>
    requires k <= |n.peers|
    decreases |n.peers| - k
  {
    if k == |n.peers| then []
    else [Message(kind, n.id, n.peers[k], n.myNum, val, false, 0, 0, false)] + SentTo(n, kind, val, k + 1)
  }

  lemma {:induction false} SendAdds(n: NodeState, kind: Kind, val: nat, k: nat)
    requires k <= |n.peers|
    ensures SendAll(n, kind, val, k).outbound == n.outbound + SentTo(n, kind, val, k)
    decreases |n.peers| - k
  {
    if k < |n.peers| {
      var m := Message(kind, n.id, n.peers[k], n.myNum, val, false, 0, 0, false);
      var n1 := n.(outbound := n.outbound + [m]);
      SendAdds(n1, kind, val, k + 1);
      SameSent(n, n1, kind, val, k + 1);
    }
  }

  lemma {:induction false} SameSent(n: NodeState, n': NodeState, kind: Kind, val: nat, k: nat)
    requires n.peers == n'.peers && n.id == n'.id && n.myNum == n'.myNum && k <= |n.peers|
    ensures SentTo(n, kind, val, k) == SentTo(n', kind, val, k)
    decreases |n.peers| - k
  {
    if k < |n.peers| { SameSent(n, n', kind, val, k + 1); }
  }

  lemma {:induction false} SentOnce(n: NodeState, kind: Kind, val: nat, k: nat)
    requires k <= |n.peers| && forall i, j :: 0 <= i < j < |n.peers| ==> n.peers[i] != n.peers[j]
    ensures forall m :: m in SentTo(n, kind, val, k) ==>
      m == Message(kind, n.id, m.to, n.myNum, val, false, 0, 0, false) && m.to in n.peers[k..]
    ensures forall m :: multiset(SentTo(n, kind, val, k))[m] <= 1
    decreases |n.peers| - k
  {
    if k < |n.peers| {
      SentOnce(n, kind, val, k + 1);
      assert n.peers[k..] == [n.peers[k]] + n.peers[k + 1..];
      assert n.peers[k] !in n.peers[k + 1..];
    }
  }

  lemma CloseAdds(n: NodeState) returns (sent: seq<Message>)
    requires Peered(n)
    ensures Adds(n, Close(n), [], sent) && PutsToVote(n.id, n.myNum, n.myVal, [], sent)
    ensures Close(n).myNum == n.myNum && Close(n).myVal == n.myVal
  {
    hide Popcount;
    if Popcount(n.acceptMask) >= Quorum(n) {
      sent := [];
    } else {
      sent := SentTo(n, Accept, n.myVal, 0);
      SendAdds(n, Accept, n.myVal, 0);
      SentOnce(n, Accept, n.myVal, 0);
    }
  }

  /** Recording a promise adds nothing, or puts one value to the vote under the current number. */
  lemma RecordAdds(n: NodeState, from: Id, num: nat, val: nat, has: bool) returns (acc: seq<Acceptance>, sent: seq<Message>, x: nat)
    requires Peered(n) && NodeId(from)
    ensures NodeId(n.id) && Adds(n, RecordPromise(n, from, num, val, has), acc, sent)
    ensures PutsToVote(n.id, n.myNum, x, acc, sent)
    ensures RecordPromise(n, from, num, val, has).myNum == n.myNum
  {
    hide Popcount, Close, Or, NodeBit;
    var n1 := PaxosModel.Count(n, from, num, val, has);
    x := Adopt(n1).myVal;
    if Popcount(n1.promiseMask) < Quorum(n1) {
      acc, sent := [], [];
    } else {
      var n2 := Adopt(n1);
      acc := if n2.promised <= n2.myNum then [Acceptance(n2.myNum, n2.myVal)] else [];
      sent := CloseAdds(VoteOwn(n2));
    }
  }

  lemma ProposeAdds(n: NodeState, val: nat) returns (acc: seq<Acceptance>, sent: seq<Message>, x: nat)
    requires Peered(n)
    ensures Valid(n) && Adds(n, Propose(n, val), acc, sent)
    ensures PutsToVote(n.id, Fresh(n, val).myNum, x, acc, sent)
  {
    hide RecordPromise, SendAll, PutsToVote;
    var n1 := Fresh(n, val);
    var n2 := OnPrepare(n1, n1.myNum);
    var n3 := n2;
    acc, sent, x := [], [], 0;
    NothingPut(n.id, n1.myNum, x);
    if n1.myNum > n1.promised {
      acc, sent, x := RecordAdds(n2, n2.id, n1.acceptedNum, n1.acceptedVal, n1.hasAccepted);
      n3 := RecordPromise(n2, n2.id, n1.acceptedNum, n1.acceptedVal, n1.hasAccepted);
    }
    SendAdds(n3, Prepare, 0, 0);
    SentOnce(n3, Prepare, 0, 0);
    PutsMore(n.id, n1.myNum, x, acc, sent, SentTo(n3, Prepare, 0, 0));
    sent := sent + SentTo(n3, Prepare, 0, 0);
  }

  lemma NothingPut(id: Id, b: nat, x: nat)
    ensures PutsToVote(id, b, x, [], [])
  {
  }

  lemma PutsMore(id: Id, b: nat, x: nat, acc: seq<Acceptance>, sent: seq<Message>, more: seq<Message>)
    requires PutsToVote(id, b, x, acc, sent) && NoBallots(id, more)
    ensures PutsToVote(id, b, x, acc, sent + more)
  {
  }

  // ----- One step -----

  /** Node `w` made a call, and the network lost at most what it delivered. */
  ghost predicate Acts(c: Cluster, d: Cluster, w: Id, acc: seq<Acceptance>, sent: seq<Message>) {
    && w in c.nodes && c.nodes[w].id == w && c.nodes[w].size == c.size && d.size == c.size
    && w in d.nodes && d.nodes == c.nodes[w := d.nodes[w]] && Adds(c.nodes[w], d.nodes[w], acc, sent)
    && (forall m :: d.network[m] <= c.network[m])
  }

  lemma ShapesStay(c: Cluster, d: Cluster, w: Id, acc: seq<Acceptance>, sent: seq<Message>)
    requires AllShaped(c) && Acts(c, d, w, acc, sent) && forall m :: m in sent ==> Shaped(c.size, m) && m.from == w
    ensures AllShaped(d)
  {
    forall m | m in d.network ensures Shaped(d.size, m) { assert m in c.network; }
    forall v, m | v in d.nodes && m in d.nodes[v].outbound ensures Shaped(d.size, m) && m.from == v {
      if v == w && m !in c.nodes[w].outbound { assert m in sent; } else { assert m in c.nodes[v].outbound; }
    }
  }

  /** How the load of one ballot changes. */
  lemma LoadAfter(c: Cluster, d: Cluster, w: Id, acc: seq<Acceptance>, sent: seq<Message>, v: Id, a: Id, b: nat, x: nat)
    requires Acts(c, d, w, acc, sent) && v in c.nodes && a in c.nodes
    ensures v in d.nodes && a in d.nodes
    ensures Load(d, v, a, b, x) <= Load(c, v, a, b, x)
      + (if a == w then multiset(acc)[Acceptance(b, x)] else 0)
      + (if v == w && v != a then multiset(sent)[Ballot(v, a, b, x)] else 0)
      - (if v == a then 0 else c.network[Ballot(v, a, b, x)] - d.network[Ballot(v, a, b, x)])
  {
  }

  lemma QuietKeeps(c: Cluster, d: Cluster, w: Id, sent: seq<Message>)
    requires Once(c) && Acts(c, d, w, [], sent) && NoBallots(w, sent)
    ensures Once(d)
  {
    hide Load, Acts;
    ShapesStay(c, d, w, [], sent);
    forall v, a, b, x | v in d.nodes && a in d.nodes && Owned(b, d.size, v) ensures Load(d, v, a, b, x) <= 1 {
      SameMembers(c, d, w, [], sent);
      LoadAfter(c, d, w, [], sent, v, a, b, x);
      assert Ballot(v, a, b, x) !in sent;
    }
  }

  lemma SameMembers(c: Cluster, d: Cluster, w: Id, acc: seq<Acceptance>, sent: seq<Message>)
    requires Acts(c, d, w, acc, sent)
    ensures c.nodes.Keys == d.nodes.Keys && c.size == d.size && w in c.nodes
    ensures forall m :: d.network[m] <= c.network[m]
  {
  }

  /** A delivered ballot becomes at most one acceptance. */
  lemma BallotKeeps(c: Cluster, d: Cluster, w: Id, m: Message, acc: seq<Acceptance>, sent: seq<Message>)
    requires Once(c) && Acts(c, d, w, acc, sent) && NoBallots(w, sent) && c.nodes.Keys == Ids(c.size)
    requires m in c.network && m.kind == Accept && m.to == w && m.from != w && m.from in c.nodes
    requires acc == [] || acc == [Acceptance(m.num, m.val)]
    requires d.network == c.network - multiset{m}
    ensures Once(d)
  {
    hide Load, Acts;
    ShapesStay(c, d, w, acc, sent);
    SameMembers(c, d, w, acc, sent);
    assert Shaped(c.size, m);
    forall v, a, b, x | v in d.nodes && a in d.nodes && Owned(b, d.size, v) ensures Load(d, v, a, b, x) <= 1 {
      LoadAfter(c, d, w, acc, sent, v, a, b, x);
      assert Ballot(v, a, b, x) !in sent;
      if a == w && Acceptance(b, x) == Acceptance(m.num, m.val) { OwnersDiffer(b, c.size, v, m.from); }
    }
  }

  /** Nothing was accepted or sent under a number that has not been proposed. */
  lemma NoLoad(s: P.State, c: Cluster, v: Id, a: Id, b: nat, x: nat)
    requires Rel(s, c) && b !in s.proposals && v in c.nodes && a in c.nodes
    ensures Load(c, v, a, b, x) == 0
  {
    hide P.Inv, PeeredAs, NumberIs, ProposerOk, Summarised, VotesOf;
    assert Tracks(s, c.nodes[a]) && Tracks(s, c.nodes[v]);
    assert Acceptance(b, x) !in c.nodes[a].accepts;
    assert !Known(s, Ballot(v, a, b, x));
  }

  lemma PutsKeeps(s: P.State, c: Cluster, d: Cluster, w: Id, b: nat, x: nat, acc: seq<Acceptance>, sent: seq<Message>)
    requires Rel(s, c) && Once(c) && Acts(c, d, w, acc, sent) && b !in s.proposals && Owned(b, c.size, w)
    requires PutsToVote(w, b, x, acc, sent)
    ensures Once(d)
  {
    hide Load, Acts, Rel;
    SameMembers(c, d, w, acc, sent);
    IdsOf(s, c);
    ShapesStay(c, d, w, acc, sent);
    forall v, a, b', x' | v in d.nodes && a in d.nodes && Owned(b', d.size, v) ensures Load(d, v, a, b', x') <= 1 {
      LoadAfter(c, d, w, acc, sent, v, a, b', x');
      if b' == b {
        OwnersDiffer(b, c.size, v, w);
        NoLoad(s, c, v, a, b', x');
      } else {
        assert Ballot(v, a, b', x') !in sent;
      }
    }
  }

  lemma IdsOf(s: P.State, c: Cluster)
    requires Rel(s, c)
    ensures c.nodes.Keys == Ids(c.size)
  {
    hide P.Inv, Tracks, Known;
  }

  lemma DrainKeeps(c: Cluster, w: Id)
    requires Once(c) && Callable(c, w)
    ensures Once(Next(c, Drain(w)))
  {
    var d := Next(c, Drain(w));
    forall v, a, b, x | v in d.nodes && a in d.nodes && Owned(b, d.size, v) ensures Load(d, v, a, b, x) <= 1 {
      assert Load(c, v, a, b, x) <= 1;
      var m := Ballot(v, a, b, x);
      if v != w { assert m !in c.nodes[w].outbound; }
    }
  }

  lemma LoseKeeps(c: Cluster, m: Message)
    requires Once(c) && m in c.network
    ensures Once(c.(network := c.network - multiset{m}))
  {
    var d := c.(network := c.network - multiset{m});
    forall v, a, b, x | v in d.nodes && a in d.nodes && Owned(b, d.size, v) ensures Load(d, v, a, b, x) <= 1 {
      assert Load(c, v, a, b, x) <= 1;
    }
  }

  // ----- Every step -----

  lemma ProposalOnce(s: P.State, c: Cluster, d: Cluster, w: Id, n: NodeState, val: nat)
    requires Rel(s, c) && Once(c) && P.Inv(s) && Tracks(s, n) && Valid(n) && w in c.nodes && w in d.nodes
    requires c.nodes[w].id == w && c.nodes[w].size == c.size && n == c.nodes[w].(elapsed := n.elapsed)
    requires d == c.(nodes := c.nodes[w := Propose(n, val)])
    ensures Once(d)
  {
    hide Rel, Once, P.Inv, Tracks, Propose, PutsToVote, Owned;
    PeersOf(s, n);
    var acc, sent, x := ProposeAdds(n, val);
    FreshTracks(s, n, val);
    FreshShape(n, val);
    NumberOwned(s, Fresh(n, val));
    PutsKeeps(s, c, d, w, Fresh(n, val).myNum, x, acc, sent);
  }

  lemma PeersOf(s: P.State, n: NodeState)
    requires Tracks(s, n)
    ensures Peered(n) && Valid(n)
  {
  }

  lemma ClockOnce(s: P.State, c: Cluster, w: Id)
    requires Rel(s, c) && Once(c) && Callable(c, w)
    ensures Once(Next(c, Clock(w)))
  {
    hide Once, P.Inv, Tracks, Known, Propose, AllOwned;
    var n, d := c.nodes[w], Next(c, Clock(w));
    var n1 := n.(elapsed := n.elapsed + 1);
    ClockTracks(s, n);
    if (n.phase == Preparing || n.phase == Accepting) && n1.elapsed >= n1.timeout {
      ProposalOnce(s, c, d, w, n1, n1.myVal);
    } else {
      assert n.outbound + [] == n.outbound && n.accepts + [] == n.accepts;
      QuietKeeps(c, d, w, []);
    }
  }

  lemma DeliverOnce(s: P.State, c: Cluster, m: Message)
    requires Rel(s, c) && Once(c) && Enabled(c, Deliver(m))
    ensures Once(Next(c, Deliver(m)))
  {
    hide Once, P.Inv, Tracks, RecordPromise, PutsToVote, AllOwned, Or, NodeBit, Popcount;
    var w, d := m.to, Next(c, Deliver(m));
    var n := c.nodes[w];
    assert Known(s, m);
    match m.kind {
      case Prepare =>
        assert n.accepts + [] == n.accepts;
        QuietKeeps(c, d, w, [Reply(n, m)]);
      case Promise =>
        if m.num == n.myNum && n.phase == Preparing && m.ok {
          PeersOf(s, n);
          NumberOwned(s, n);
          var acc, sent, x := RecordAdds(n, m.from, m.acceptedNum, m.acceptedVal, m.hasAccepted);
          PutsKeeps(s, c, d, w, n.myNum, x, acc, sent);
        } else {
          assert n.outbound + [] == n.outbound && n.accepts + [] == n.accepts;
          QuietKeeps(c, d, w, []);
        }
      case Accept =>
        var reply := Message(Accepted, n.id, m.from, m.num, 0, n.promised <= m.num, 0, 0, false);
        var acc := if n.promised <= m.num then [Acceptance(m.num, m.val)] else [];
        assert n.accepts + [] == n.accepts;
        BallotKeeps(c, d, w, m, acc, [reply]);
      case Accepted =>
        assert n.outbound + [] == n.outbound && n.accepts + [] == n.accepts;
        QuietKeeps(c, d, w, []);
    }
  }

  lemma NextOnce(s: P.State, c: Cluster, e: Event)
    requires Rel(s, c) && Once(c) && Enabled(c, e) && !e.Duplicate?
    ensures Once(Next(c, e))
  {
    hide Once, P.Inv, Tracks, Known, Propose, AllOwned;
    match e {
      case Proposal(id, val) => ProposalOnce(s, c, Next(c, e), id, c.nodes[id], val);
      case Clock(id) => ClockOnce(s, c, id);
      case Drain(id) => DrainKeeps(c, id);
      case Deliver(m) => DeliverOnce(s, c, m);
      case Lose(m) => LoseKeeps(c, m);
    }
  }

  lemma {:induction false} OnceThroughout(states: seq<Cluster>, events: seq<Event>, ss: seq<P.State>, i: nat)
    requires Run(states, events) && Behind(ss, states) && i < |states| && forall k :: 0 <= k < i ==> !events[k].Duplicate?
    ensures Once(states[i])
    decreases i
  {
    hide Rel, Once, P.Evolves, Enabled, Next;
    if i == 0 {
      InitOnce(states[0]);
    } else {
      OnceThroughout(states, events, ss, i - 1);
      assert Rel(ss[i - 1], states[i - 1]);
      NextOnce(ss[i - 1], states[i - 1], events[i - 1]);
    }
  }

  lemma InitOnce(c: Cluster)
    requires Init(c)
    ensures Once(c)
  {
    hide PeersFrom;
  }

  lemma OnceMeansNoRepeats(s: P.State, c: Cluster, a: Id)
    requires Rel(s, c) && Once(c) && a in c.nodes
    ensures NoRepeats(c.nodes[a].accepts)
  {
    hide P.Inv, PeeredAs, NumberIs, ProposerOk, Summarised, VotesOf, Known, Owned;
    assert Tracks(s, c.nodes[a]);
    var h := c.nodes[a].accepts;
    forall x: Acceptance ensures multiset(h)[x] <= 1 {
      if x in h {
        var v :| v in Ids(c.size) && Owned(x.num, c.size, v);
        assert Load(c, v, a, x.num, x.val) <= 1;
      }
    }
  }

  /**
   * In a run in which no message is delivered twice, the tally returns exactly the chosen
   * values, and so at most one.
   */
  lemma TallyIsExact(states: seq<Cluster>, events: seq<Event>, i: nat, v: nat)
    requires Run(states, events) && i < |states| && forall k :: 0 <= k < i ==> !events[k].Duplicate?
    ensures states[i].nodes.Keys == Ids(states[i].size)
    ensures v in Tally(Histories(states[i])) <==> exists num: nat :: ChosenAt(states[i], num, v)
    ensures v in Tally(Histories(states[i])) ==> forall w :: w in Tally(Histories(states[i])) ==> w == v
  {
    hide Rel, Run, Once, P.Evolves, ChosenAt, Tally, NoRepeats;
    var ss := ProtocolBehind(states, events);
    assert Rel(ss[i], states[i]);
    OnceThroughout(states, events, ss, i);
    IdsOf(ss[i], states[i]);
    forall a | a in states[i].nodes ensures NoRepeats(states[i].nodes[a].accepts) { OnceMeansNoRepeats(ss[i], states[i], a); }
    TallyIsChosen(states[i], v);
    if v in Tally(Histories(states[i])) { SingleTally(states, events, i, v); }
  }

  lemma VotedBefore(s: P.State, n: NodeState, num: nat, val: nat)
    requires Tracks(s, n) && num in s.proposals && s.proposals[num] == val && n.promised <= num
    ensures Acceptance(num, val) in n.accepts <==> n.hasAccepted && num == n.promised == n.acceptedNum
  {
    hide Known, ProposerOk, PeeredAs, NumberIs, OwnNumbers;
    VotesAre(n.accepts, num);
    if num in VotesOf(n.accepts) {
      var i :| 0 <= i < |n.accepts| && n.accepts[i].num == num;
      assert n.accepts[i] in n.accepts;
    }
  }

  lemma OneMoreRepeats(h: seq<Acceptance>, a: Acceptance)
    requires NoRepeats(h)
    ensures NoRepeats(h + [a]) <==> a !in h
  {
    assert multiset(h + [a]) == multiset(h) + multiset{a};
    if a in h { assert multiset(h)[a] >= 1 && multiset(h + [a])[a] >= 2; }
  }

  /** A history without repeats gets one exactly when a request arrives under the number that the
      acceptor has promised last and accepted already. */
  lemma RepeatsExactly(states: seq<Cluster>, events: seq<Event>, i: nat, m: Message)
    requires Run(states, events) && i < |states| && m in states[i].network && m.kind == Accept
    requires m.to in states[i].nodes && NoRepeats(states[i].nodes[m.to].accepts)
    ensures var n := states[i].nodes[m.to];
      !NoRepeats(OnAccept(n, m.num, m.val).accepts) <==> n.hasAccepted && m.num == n.promised == n.acceptedNum
  {
    hide Rel, P.Evolves, Init, Next, Enabled, NoRepeats, Tracks;
    var ss := ProtocolBehind(states, events);
    var n := states[i].nodes[m.to];
    assert Rel(ss[i], states[i]);
    BallotIsKnown(ss[i], states[i], m);
    if n.promised <= m.num {
      VotedBefore(ss[i], n, m.num, m.val);
      OneMoreRepeats(n.accepts, Acceptance(m.num, m.val));
    }
  }

  lemma BallotIsKnown(s: P.State, c: Cluster, m: Message)
    requires Rel(s, c) && m in c.network && m.kind == Accept && m.to in c.nodes
    ensures Tracks(s, c.nodes[m.to]) && m.num in s.proposals && s.proposals[m.num] == m.val
  {
    hide P.Inv, Tracks;
    assert Known(s, m);
  }

  lemma SingleTally(states: seq<Cluster>, events: seq<Event>, i: nat, v: nat)
    requires Run(states, events) && i < |states| && states[i].nodes.Keys == Ids(states[i].size)
    requires forall w :: w in states[i].nodes ==> NoRepeats(states[i].nodes[w].accepts)
    requires v in Tally(Histories(states[i]))
    ensures forall w :: w in Tally(Histories(states[i])) ==> w == v
  {
    hide Run, ChosenAt, Tally, NoRepeats;
    TallyIsChosen(states[i], v);
    forall w | w in Tally(Histories(states[i])) ensures w == v {
      TallyIsChosen(states[i], w);
      var num: nat :| ChosenAt(states[i], num, v);
      var num': nat :| ChosenAt(states[i], num', w);
      Agreement(states, events, i, i, num, v, num', w);
    }
  }

  // ----- A duplicated ballot -----

  function Asked(from: Id, to: Id, num: nat): Message { Message(Prepare, from, to, num, 0, false, 0, 0, false) }

  function Granted(from: Id, to: Id, num: nat): Message { Message(Promise, from, to, num, 0, true, 0, 0, false) }

  function Three(a: NodeState, b: NodeState, c: NodeState, network: multiset<Message>): Cluster {
    Cluster(3, map[1 := a, 2 := b, 3 := c], network)
  }

  function Waiting(id: Id, num: nat, val: nat, mask: nat): NodeState {
    NewNode(id, 3, 9).(promised := num, phase := Preparing, round := 1, myNum := num, myVal := val, promiseMask := mask)
  }

  lemma PeersOfThree()
    ensures PeersFrom(1, 3, 1) == [2, 3] && PeersFrom(2, 3, 1) == [1, 3] && PeersFrom(3, 3, 1) == [1, 2]
  {
    assert PeersFrom(1, 3, 4) == PeersFrom(2, 3, 4) == PeersFrom(3, 3, 4) == [];
    assert PeersFrom(1, 3, 3) == [3] && PeersFrom(2, 3, 3) == [3] && PeersFrom(3, 3, 3) == [];
    assert PeersFrom(1, 3, 2) == [2, 3] && PeersFrom(2, 3, 2) == [3] && PeersFrom(3, 3, 2) == [2];
  }

  lemma SendsTwo(n: NodeState, kind: Kind, val: nat, p: Id, q: Id)
    requires n.peers == [p, q]
    ensures SendAll(n, kind, val, 0) ==
      n.(outbound := n.outbound + [Message(kind, n.id, p, n.myNum, val, false, 0, 0, false), Message(kind, n.id, q, n.myNum, val, false, 0, 0, false)])
  {
    SendAdds(n, kind, val, 0);
    assert SentTo(n, kind, val, 2) == [];
    assert SentTo(n, kind, val, 1) == [Message(kind, n.id, q, n.myNum, val, false, 0, 0, false)];
  }

  lemma SmallMasks()
    ensures NodeBit(1) == 1 && NodeBit(2) == 2 && NodeBit(3) == 4
    ensures Or(0, 1) == 1 && Or(0, 4) == 4 && Or(1, 2) == 3
    ensures Popcount(0) == 0 && Popcount(1) == 1 && Popcount(4) == 1 && Popcount(3) == 2
  {
    assert Popcount(2) == 1;
  }

  /** A fresh node of three proposes under number 3 + id and waits for a second promise. */
  lemma FirstProposal(id: Id, val: nat, p: Id, q: Id, mask: nat)
    requires id == 1 || id == 3
    requires NewNode(id, 3, 9).peers == [p, q] && mask == NodeBit(id)
    ensures Propose(NewNode(id, 3, 9), val) == Waiting(id, 3 + id, val, mask).(outbound := [Asked(id, p, 3 + id), Asked(id, q, 3 + id)])
  {
    hide SendAll, PeersFrom, Or, Popcount, NodeBit, Pow2;
    SmallMasks();
    var n := NewNode(id, 3, 9);
    var n1 := Fresh(n, val);
    assert NextRound(n) == 1 && n1.myNum == 3 + id;
    var n2 := RecordPromise(OnPrepare(n1, n1.myNum), id, 0, 0, false);
    assert n2 == Waiting(id, 3 + id, val, mask);
    SendsTwo(n2, Prepare, 0, p, q);
  }

  /** Node 1 holds a majority of promises for 4 but has itself promised 6 meanwhile. */
  lemma SecondPromise()
    ensures var n := Waiting(1, 4, 7, 1).(promised := 6);
      RecordPromise(n, 2, 0, 0, false) ==
        n.(phase := Accepting, promiseMask := 3, outbound := [Ballot(1, 2, 4, 7), Ballot(1, 3, 4, 7)])
  {
    hide SendAll, PeersFrom, Or, Popcount, NodeBit, Pow2;
    SmallMasks();
    PeersOfThree();
    var n := Waiting(1, 4, 7, 1).(promised := 6);
    var n1 := PaxosModel.Count(n, 2, 0, 0, false);
    assert n1 == n.(promiseMask := 3);
    var n2 := VoteOwn(Adopt(n1));
    assert n2 == n.(promiseMask := 3, phase := Accepting);
    SendsTwo(n2, Accept, 7, 2, 3);
  }

  /** A run that ends in `c`. */
  ghost predicate Reaches(c: Cluster) {
    exists states, events :: Run(states, events) && states[|states| - 1] == c
  }

  lemma ReachesNext(c: Cluster, e: Event)
    requires Reaches(c) && Enabled(c, e)
    ensures Reaches(Next(c, e))
  {
    hide Enabled, Next, Init;
    var states, events :| Run(states, events) && states[|states| - 1] == c;
    var longer, more := states + [Next(c, e)], events + [e];
    assert Run(longer, more) by {
      forall i | 0 <= i < |more| ensures Enabled(longer[i], more[i]) && longer[i + 1] == Next(longer[i], more[i]) {
        if i < |events| { assert longer[i] == states[i] && longer[i + 1] == states[i + 1]; }
      }
    }
    assert longer[|longer| - 1] == Next(c, e);
  }

  lemma StartOfThree()
    ensures Reaches(Three(NewNode(1, 3, 9), NewNode(2, 3, 9), NewNode(3, 3, 9), multiset{}))
  {
    hide PeersFrom;
    var c := Three(NewNode(1, 3, 9), NewNode(2, 3, 9), NewNode(3, 3, 9), multiset{});
    assert c.nodes.Keys == Ids(3) by { assert forall i: Id :: i in Ids(3) <==> i == 1 || i == 2 || i == 3; }
    assert Run([c], []);
    assert [c][|[c]| - 1] == c;
  }

  /** `Three` with one of its nodes replaced. */
  function With(a: NodeState, b: NodeState, c: NodeState, network: multiset<Message>, id: Id, n: NodeState): Cluster {
    Three(if id == 1 then n else a, if id == 2 then n else b, if id == 3 then n else c, network)
  }

  predicate IsOneOf(a: NodeState, b: NodeState, c: NodeState, id: Id, n: NodeState) {
    Valid(n) && ((id == 1 && n == a) || (id == 2 && n == b) || (id == 3 && n == c))
  }

  lemma ProposeNext(a: NodeState, b: NodeState, c: NodeState, net: multiset<Message>, id: Id, n: NodeState, val: nat)
    requires Reaches(Three(a, b, c, net)) && IsOneOf(a, b, c, id, n)
    ensures Reaches(With(a, b, c, net, id, Propose(n, val)))
  {
    hide Reaches, Propose;
    ReachesNext(Three(a, b, c, net), Proposal(id, val));
    assert Next(Three(a, b, c, net), Proposal(id, val)) == With(a, b, c, net, id, Propose(n, val));
  }

  lemma DrainNext(a: NodeState, b: NodeState, c: NodeState, net: multiset<Message>, id: Id, n: NodeState)
    requires Reaches(Three(a, b, c, net)) && IsOneOf(a, b, c, id, n)
    ensures Reaches(With(a, b, c, net + multiset(n.outbound), id, n.(outbound := [])))
  {
    hide Reaches;
    ReachesNext(Three(a, b, c, net), Drain(id));
    assert Next(Three(a, b, c, net), Drain(id)) == With(a, b, c, net + multiset(n.outbound), id, n.(outbound := []));
  }

  lemma DeliverNext(a: NodeState, b: NodeState, c: NodeState, net: multiset<Message>, n: NodeState, m: Message)
    requires Reaches(Three(a, b, c, net)) && IsOneOf(a, b, c, m.to, n) && NodeId(m.from) && m in net
    ensures Reaches(With(a, b, c, net - multiset{m}, m.to, Step(n, m)))
  {
    hide Reaches, Step;
    ReachesNext(Three(a, b, c, net), Deliver(m));
    assert Next(Three(a, b, c, net), Deliver(m)) == With(a, b, c, net - multiset{m}, m.to, Step(n, m));
  }

  /** A proposal whose messages have left the node. */
  lemma Proposed(a: NodeState, b: NodeState, c: NodeState, net: multiset<Message>, id: Id, n: NodeState, val: nat, n': NodeState)
    requires Reaches(Three(a, b, c, net)) && IsOneOf(a, b, c, id, n) && n' == Propose(n, val)
    ensures Reaches(With(a, b, c, net + multiset(n'.outbound), id, n'.(outbound := [])))
  {
    hide Reaches, Propose;
    ProposeNext(a, b, c, net, id, n, val);
    var a1, b1, c1 := if id == 1 then n' else a, if id == 2 then n' else b, if id == 3 then n' else c;
    DrainNext(a1, b1, c1, net, id, n');
  }

  /** A delivery whose answers have left the node. */
  lemma Answered(a: NodeState, b: NodeState, c: NodeState, net: multiset<Message>, n: NodeState, m: Message, n': NodeState)
    requires Reaches(Three(a, b, c, net)) && IsOneOf(a, b, c, m.to, n) && NodeId(m.from) && m in net && n' == Step(n, m) && Valid(n')
    ensures Reaches(With(a, b, c, net - multiset{m} + multiset(n'.outbound), m.to, n'.(outbound := [])))
  {
    hide Reaches, Step;
    DeliverNext(a, b, c, net, n, m);
    var a1, b1, c1 := if m.to == 1 then n' else a, if m.to == 2 then n' else b, if m.to == 3 then n' else c;
    DrainNext(a1, b1, c1, net - multiset{m}, m.to, n');
  }

  const PROPOSED: multiset<Message> := multiset{Asked(1, 2, 4), Asked(1, 3, 4)} + multiset{Asked(3, 1, 6), Asked(3, 2, 6)}

  lemma BothPropose()
    ensures Reaches(Three(Waiting(1, 4, 7, 1), NewNode(2, 3, 9), Waiting(3, 6, 9, 4), PROPOSED))
  {
    hide Reaches, Propose, PeersFrom, NodeBit;
    StartOfThree();
    PeersOfThree();
    SmallMasks();
    var a, b, c := NewNode(1, 3, 9), NewNode(2, 3, 9), NewNode(3, 3, 9);
    FirstProposal(1, 7, 2, 3, 1);
    FirstProposal(3, 9, 1, 2, 4);
    Proposed(a, b, c, multiset{}, 1, a, 7, Propose(a, 7));
    var sent := multiset{Asked(1, 2, 4), Asked(1, 3, 4)};
    assert multiset{} + multiset(Propose(a, 7).outbound) == sent;
    Proposed(Waiting(1, 4, 7, 1), b, c, sent, 3, c, 9, Propose(c, 9));
    assert sent + multiset(Propose(c, 9).outbound) == PROPOSED;
  }

  lemma PromiseGiven(n: NodeState, from: Id, num: nat)
    requires Valid(n) && NodeId(from) && num > n.promised && n.outbound == [] && !n.hasAccepted && n.acceptedNum == 0 && n.acceptedVal == 0
    ensures Step(n, Asked(from, n.id, num)) == n.(promised := num, outbound := [Granted(n.id, from, num)])
  {
  }

  lemma BallotTaken(n: NodeState, from: Id, num: nat, val: nat)
    requires Valid(n) && NodeId(from) && num == n.promised
    ensures Step(n, Ballot(from, n.id, num, val)) ==
      n.(acceptedNum := num, acceptedVal := val, hasAccepted := true, accepts := n.accepts + [Acceptance(num, val)],
         outbound := n.outbound + [Message(Accepted, n.id, from, num, 0, true, 0, 0, false)])
  {
  }

  const ANSWERED: multiset<Message> :=
    PROPOSED - multiset{Asked(3, 1, 6)} + multiset{Granted(1, 3, 6)} - multiset{Asked(1, 2, 4)} + multiset{Granted(2, 1, 4)}

  lemma BothAnswer()
    ensures Reaches(Three(Waiting(1, 4, 7, 1).(promised := 6), NewNode(2, 3, 9).(promised := 4), Waiting(3, 6, 9, 4), ANSWERED))
  {
    hide Reaches, Propose, PeersFrom, NodeBit, Step;
    BothPropose();
    var a, b, c := Waiting(1, 4, 7, 1), NewNode(2, 3, 9), Waiting(3, 6, 9, 4);
    PromiseGiven(a, 3, 6);
    PromiseGiven(b, 1, 4);
    var a' := Step(a, Asked(3, 1, 6));
    Answered(a, b, c, PROPOSED, a, Asked(3, 1, 6), a');
    var net := PROPOSED - multiset{Asked(3, 1, 6)} + multiset{Granted(1, 3, 6)};
    assert PROPOSED - multiset{Asked(3, 1, 6)} + multiset(a'.outbound) == net;
    Answered(a'.(outbound := []), b, c, net, b, Asked(1, 2, 4), Step(b, Asked(1, 2, 4)));
  }

  const BALLOTED: multiset<Message> := ANSWERED - multiset{Granted(2, 1, 4)} + multiset{Ballot(1, 2, 4, 7), Ballot(1, 3, 4, 7)}

  lemma BallotSent()
    ensures Reaches(Three(Waiting(1, 4, 7, 1).(promised := 6, phase := Accepting, promiseMask := 3), NewNode(2, 3, 9).(promised := 4),
                          Waiting(3, 6, 9, 4), BALLOTED))
  {
    hide Reaches, Propose, PeersFrom, NodeBit, RecordPromise;
    BothAnswer();
    SecondPromise();
    var a, b, c := Waiting(1, 4, 7, 1).(promised := 6), NewNode(2, 3, 9).(promised := 4), Waiting(3, 6, 9, 4);
    Answered(a, b, c, ANSWERED, a, Granted(2, 1, 4), Step(a, Granted(2, 1, 4)));
  }

  /** The second node accepts 7 twice, nobody else accepts anything. */
  function Overcounted(network: multiset<Message>, sent: seq<Message>): Cluster {
    Three(Waiting(1, 4, 7, 1).(promised := 6, phase := Accepting, promiseMask := 3),
          NewNode(2, 3, 9).(promised := 4, acceptedNum := 4, acceptedVal := 7, hasAccepted := true,
                            accepts := [Acceptance(4, 7), Acceptance(4, 7)], outbound := sent),
          Waiting(3, 6, 9, 4), network)
  }

  /** A ballot that is duplicated and delivered twice. */
  lemma TakenTwice(a: NodeState, b: NodeState, c: NodeState, net: multiset<Message>, m: Message)
    requires Reaches(Three(a, b, c, net)) && Valid(b) && m in net && m == Ballot(1, 2, b.promised, m.val) && b.id == 2
    requires b.accepts == [] && b.outbound == []
    ensures var x, reply := Acceptance(b.promised, m.val), Message(Accepted, 2, 1, b.promised, 0, true, 0, 0, false);
      Reaches(Three(a, b.(acceptedNum := b.promised, acceptedVal := m.val, hasAccepted := true, accepts := [x, x], outbound := [reply, reply]),
                    c, net - multiset{m}))
  {
    hide Reaches, Step;
    var x, reply := Acceptance(b.promised, m.val), Message(Accepted, 2, 1, b.promised, 0, true, 0, 0, false);
    ReachesNext(Three(a, b, c, net), Duplicate(m));
    BallotTaken(b, 1, b.promised, m.val);
    DeliverNext(a, b, c, net + multiset{m}, b, m);
    var b' := Step(b, m);
    assert b'.accepts == [x] && b'.outbound == [reply];
    BallotTaken(b', 1, b.promised, m.val);
    assert net + multiset{m} - multiset{m} == net;
    DeliverNext(a, b', c, net, b', m);
    assert b'.accepts + [x] == [x, x] && b'.outbound + [reply] == [reply, reply];
  }

  lemma AcceptedTwice() returns (network: multiset<Message>, sent: seq<Message>)
    ensures Reaches(Overcounted(network, sent))
  {
    hide Reaches, PeersFrom;
    BallotSent();
    var a, c := Waiting(1, 4, 7, 1).(promised := 6, phase := Accepting, promiseMask := 3), Waiting(3, 6, 9, 4);
    var b, m := NewNode(2, 3, 9).(promised := 4), Ballot(1, 2, 4, 7);
    TakenTwice(a, b, c, BALLOTED, m);
    var reply := Message(Accepted, 2, 1, 4, 0, true, 0, 0, false);
    network, sent := BALLOTED - multiset{m}, [reply, reply];
  }

  /** With a duplicated message the tally may report a value that was never chosen. */
  lemma DuplicationOvercounts() returns (states: seq<Cluster>, events: seq<Event>, c: Cluster)
    ensures Run(states, events) && |states| > 0 && c == states[|states| - 1] && c.nodes.Keys == Ids(c.size)
    ensures 7 in Tally(Histories(c)) && forall num: nat, v: nat :: !ChosenAt(c, num, v)
  {
    hide PeersFrom, Enabled, Next, Init, Overcounted;
    var network, sent := AcceptedTwice();
    c := Overcounted(network, sent);
    states, events :| Run(states, events) && states[|states| - 1] == c;
    OvercountedIds(network, sent);
    NothingChosen(network, sent);
    SevenCounted(network, sent);
  }

  lemma OvercountedIds(network: multiset<Message>, sent: seq<Message>)
    ensures Overcounted(network, sent).nodes.Keys == Ids(3) && Overcounted(network, sent).size == 3
  {
    hide PeersFrom;
    assert forall i: Id :: i in Ids(3) <==> i == 1 || i == 2 || i == 3;
  }

  lemma NothingChosen(network: multiset<Message>, sent: seq<Message>)
    ensures forall num: nat, v: nat :: !ChosenAt(Overcounted(network, sent), num, v)
  {
    hide PeersFrom;
    var c := Overcounted(network, sent);
    forall num: nat, v: nat ensures !ChosenAt(c, num, v) {
      assert AcceptedBy(c, num, v) <= {2};
      SubsetSize(c.nodes.Keys * AcceptedBy(c, num, v), {2});
      assert c.nodes.Keys == {1, 2, 3};
    }
  }

  lemma CountTwo(hs: seq<seq<Acceptance>>, a: Acceptance)
    requires hs == [[], [a, a], []]
    ensures PaxosTally.Count(hs, 3, a) == 2
  {
    assert multiset(hs[1])[a] == 2 by { assert hs[1] == [a] + [a]; }
    assert PaxosTally.Count(hs, 1, a) == 0;
    assert PaxosTally.Count(hs, 2, a) == 2;
  }

  lemma SevenCounted(network: multiset<Message>, sent: seq<Message>)
    requires Overcounted(network, sent).nodes.Keys == Ids(3)
    ensures 7 in Tally(Histories(Overcounted(network, sent)))
  {
    hide PeersFrom, Tally;
    var hs, a := Histories(Overcounted(network, sent)), Acceptance(4, 7);
    assert hs == [[], [a, a], []];
    CountTwo(hs, a);
    assert Popular(hs, Acceptance(4, 7));
    TallyAre(hs, 7);
  }
}
